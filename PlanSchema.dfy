/**
 * The structured-output schema the service sends with every request, and how the
 * records of `Types` read from / write to JSON. The reading functions are not code of
 * the application (it casts the parsed reply with `as StudyPlanResponse` and checks
 * nothing); they state what that cast takes for granted, so that the record types can
 * be compared with the schema's required lists.
 */
module PlanSchema {
  import opened Wrappers
  import opened Json
  import opened Types

  const FlashcardSchema: Schema :=
    ObjectSchema([Property("front", StringSchema), Property("back", StringSchema)], ["front", "back"])

  const QuizQuestionSchema: Schema :=
    ObjectSchema(
      [ Property("question", StringSchema),
        Property("options", ArraySchema(StringSchema)),
        Property("correctAnswerIndex", IntegerSchema)],
      ["question", "options", "correctAnswerIndex"])

  const DailyPlanSchema: Schema :=
    ObjectSchema(
      [ Property("day", IntegerSchema),
        Property("topic", StringSchema),
        Property("summary", StringSchema),
        Property("flashcards", ArraySchema(FlashcardSchema)),
        Property("quiz", ArraySchema(QuizQuestionSchema))],
      ["day", "topic", "summary", "flashcards", "quiz"])

  /** `studyPlanSchema`, the response schema of every generation request. */
  const StudyPlanSchema: Schema :=
    ObjectSchema(
      [ Property("planName", StringSchema),
        Property("totalDays", IntegerSchema),
        Property("schedule", ArraySchema(DailyPlanSchema))],
      ["planName", "totalDays", "schedule"])

  /** The flashcard object requires both of its properties. */
  lemma FlashcardSchemaRequiresEveryProperty()
    ensures RequiresEveryProperty(FlashcardSchema)
  {
  }

  /** The quiz-question object requires all three of its properties. */
  lemma QuizQuestionSchemaRequiresEveryProperty()
    ensures RequiresEveryProperty(QuizQuestionSchema)
  {
    assert RequiresEveryProperty(ArraySchema(StringSchema));
  }

  /** The day object requires all five of its properties, and so do the objects nested in it. */
  lemma DailyPlanSchemaRequiresEveryProperty()
    ensures RequiresEveryProperty(DailyPlanSchema)
  {
    FlashcardSchemaRequiresEveryProperty();
    QuizQuestionSchemaRequiresEveryProperty();
    assert RequiresEveryProperty(ArraySchema(FlashcardSchema));
    assert RequiresEveryProperty(ArraySchema(QuizQuestionSchema));
  }

  /** Every object of `studyPlanSchema`, at every level, requires all of its properties. */
  lemma StudyPlanSchemaRequiresEveryProperty()
    ensures RequiresEveryProperty(StudyPlanSchema)
  {
    DailyPlanSchemaRequiresEveryProperty();
    assert RequiresEveryProperty(ArraySchema(DailyPlanSchema));
  }

  // ---- writing records as JSON ----

  function StringToJson(s: string): Json {
    JString(s)
  }

  function FlashcardToJson(c: Flashcard): (j: Json)
    ensures j.JObject? && j.fields.Keys == RequiredKeys(FlashcardSchema)
  {
    JObject(map["front" := JString(c.front), "back" := JString(c.back)])
  }

  function QuizQuestionToJson(q: QuizQuestion): (j: Json)
    ensures j.JObject? && j.fields.Keys == RequiredKeys(QuizQuestionSchema)
  {
    JObject(map[
      "question" := JString(q.question),
      "options" := JArray(WriteAll(q.options, StringToJson)),
      "correctAnswerIndex" := JNumber(q.correctAnswerIndex)])
  }

  function DailyPlanToJson(d: DailyPlan): (j: Json)
    ensures j.JObject? && j.fields.Keys == RequiredKeys(DailyPlanSchema)
  {
    JObject(map[
      "day" := JNumber(d.day),
      "topic" := JString(d.topic),
      "summary" := JString(d.summary),
      "flashcards" := JArray(WriteAll(d.flashcards, FlashcardToJson)),
      "quiz" := JArray(WriteAll(d.quiz, QuizQuestionToJson))])
  }

  function PlanToJson(p: StudyPlanResponse): (j: Json)
    ensures j.JObject? && j.fields.Keys == RequiredKeys(StudyPlanSchema)
  {
    JObject(map[
      "planName" := JString(p.planName),
      "totalDays" := JNumber(p.totalDays),
      "schedule" := JArray(WriteAll(p.schedule, DailyPlanToJson))])
  }

  // ---- reading JSON as records ----

  function StringOf(j: Json): Option<string> {
    if j.JString? then Some(j.s) else None
  }

  function IntegerOf(j: Json): Option<int> {
    if j.JNumber? then Some(j.n) else None
  }

  /** The string field `key` of `j`, if `j` is an object holding a string there. */
  function StringField(j: Json, key: string): Option<string> {
    if j.JObject? && key in j.fields then StringOf(j.fields[key]) else None
  }

  function IntegerField(j: Json, key: string): Option<int> {
    if j.JObject? && key in j.fields then IntegerOf(j.fields[key]) else None
  }

  /** The array field `key` of `j`, if `j` is an object holding an array there. */
  function ArrayField(j: Json, key: string): Option<seq<Json>> {
    if j.JObject? && key in j.fields && j.fields[key].JArray? then Some(j.fields[key].elems) else None
  }

  function FlashcardFromJson(j: Json): Option<Flashcard> {
    var front := StringField(j, "front");
    var back := StringField(j, "back");
    if front.Some? && back.Some? then Some(Flashcard(front.value, back.value)) else None
  }

  function QuizQuestionFromJson(j: Json): Option<QuizQuestion> {
    var question := StringField(j, "question");
    var options := ArrayField(j, "options");
    var answer := IntegerField(j, "correctAnswerIndex");
    if question.Some? && options.Some? && answer.Some? then
      match ReadAll(options.value, StringOf)
      case None => None
      case Some(opts) => Some(QuizQuestion(question.value, opts, answer.value))
    else None
  }

  function DailyPlanFromJson(j: Json): Option<DailyPlan> {
    var day := IntegerField(j, "day");
    var topic := StringField(j, "topic");
    var summary := StringField(j, "summary");
    var cards := ArrayField(j, "flashcards");
    var quiz := ArrayField(j, "quiz");
    if day.Some? && topic.Some? && summary.Some? && cards.Some? && quiz.Some? then
      match (ReadAll(cards.value, FlashcardFromJson), ReadAll(quiz.value, QuizQuestionFromJson))
      case (Some(cs), Some(qs)) => Some(DailyPlan(day.value, topic.value, summary.value, cs, qs))
      case _ => None
    else None
  }

  /** The record `JSON.parse(text) as StudyPlanResponse` stands for, when `j` has its shape. */
  function PlanFromJson(j: Json): (r: Option<StudyPlanResponse>)
    ensures r.Some? ==> j.JObject? && RequiredKeys(StudyPlanSchema) <= j.fields.Keys
    ensures r.Some? ==> j.fields["planName"] == JString(r.value.planName) && j.fields["totalDays"] == JNumber(r.value.totalDays)
    ensures r.Some? ==> j.fields["schedule"].JArray? && |r.value.schedule| == |j.fields["schedule"].elems|
    ensures r.Some? ==> forall i :: 0 <= i < |r.value.schedule| ==> DailyPlanFromJson(j.fields["schedule"].elems[i]) == Some(r.value.schedule[i])
  {
    var name := StringField(j, "planName");
    var total := IntegerField(j, "totalDays");
    var schedule := ArrayField(j, "schedule");
    if name.Some? && total.Some? && schedule.Some? then
      match ReadAll(schedule.value, DailyPlanFromJson)
      case None => None
      case Some(days) => Some(StudyPlanResponse(name.value, total.value, days))
    else None
  }

  // ---- the schema and the record types agree ----

  lemma FlashcardConformsIffReadable(j: Json)
    ensures Conforms(j, FlashcardSchema) <==> FlashcardFromJson(j).Some?
  {
  }

  /** The quiz-item conditions of the schema, field by field. */
  predicate QuizQuestionShape(j: Json) {
    && j.JObject?
    && "question" in j.fields && j.fields["question"].JString?
    && "options" in j.fields && j.fields["options"].JArray?
    && "correctAnswerIndex" in j.fields && j.fields["correctAnswerIndex"].JNumber?
    && (forall i :: 0 <= i < |j.fields["options"].elems| ==> j.fields["options"].elems[i].JString?)
  }

  lemma ConformingQuizQuestionHasShape(j: Json)
    requires Conforms(j, QuizQuestionSchema)
    ensures QuizQuestionShape(j)
  {
    var props := QuizQuestionSchema.properties;
    assert j.JObject? && forall k :: k in QuizQuestionSchema.required ==> k in j.fields;
    assert Conforms(j.fields["question"], StringSchema) by {
      assert props[0] in props;
    }
    assert Conforms(j.fields["options"], ArraySchema(StringSchema)) by {
      assert props[1] in props;
    }
    assert Conforms(j.fields["correctAnswerIndex"], IntegerSchema) by {
      assert props[2] in props;
    }
  }

  lemma QuizQuestionShapeConforms(j: Json)
    requires QuizQuestionShape(j)
    ensures Conforms(j, QuizQuestionSchema)
  {
  }

  lemma QuizQuestionShapeIffReadable(j: Json)
    ensures QuizQuestionShape(j) <==> QuizQuestionFromJson(j).Some?
  {
    if j.JObject? && "options" in j.fields && j.fields["options"].JArray? {
      ElementsConformIffReadable(j.fields["options"].elems, StringSchema, StringOf);
    }
  }

  lemma QuizQuestionConformsIffReadable(j: Json)
    ensures Conforms(j, QuizQuestionSchema) <==> QuizQuestionFromJson(j).Some?
  {
    if Conforms(j, QuizQuestionSchema) {
      ConformingQuizQuestionHasShape(j);
    }
    if QuizQuestionShape(j) {
      QuizQuestionShapeConforms(j);
    }
    QuizQuestionShapeIffReadable(j);
  }

  /** The per-day conditions of the schema, field by field, with the arrays' elements left to their own schemas. */
  predicate DailyPlanShape(j: Json) {
    && j.JObject?
    && "day" in j.fields && j.fields["day"].JNumber?
    && "topic" in j.fields && j.fields["topic"].JString?
    && "summary" in j.fields && j.fields["summary"].JString?
    && "flashcards" in j.fields && j.fields["flashcards"].JArray?
    && "quiz" in j.fields && j.fields["quiz"].JArray?
    && (forall i :: 0 <= i < |j.fields["flashcards"].elems| ==> Conforms(j.fields["flashcards"].elems[i], FlashcardSchema))
    && (forall i :: 0 <= i < |j.fields["quiz"].elems| ==> Conforms(j.fields["quiz"].elems[i], QuizQuestionSchema))
  }

  lemma DailyPlanConformsIffShape(j: Json)
    ensures Conforms(j, DailyPlanSchema) <==> DailyPlanShape(j)
  {
    if Conforms(j, DailyPlanSchema) {
      ConformingDayHasShape(j);
    }
    if DailyPlanShape(j) {
      DayShapeConforms(j);
    }
  }

  lemma ConformingDayHasShape(j: Json)
    requires Conforms(j, DailyPlanSchema)
    ensures DailyPlanShape(j)
  {
    var props := DailyPlanSchema.properties;
    assert j.JObject? && forall k :: k in DailyPlanSchema.required ==> k in j.fields;
    assert Conforms(j.fields["day"], IntegerSchema) by {
      assert props[0] in props;
    }
    assert Conforms(j.fields["topic"], StringSchema) by {
      assert props[1] in props;
    }
    assert Conforms(j.fields["summary"], StringSchema) by {
      assert props[2] in props;
    }
    assert Conforms(j.fields["flashcards"], ArraySchema(FlashcardSchema)) by {
      assert props[3] in props;
    }
    assert Conforms(j.fields["quiz"], ArraySchema(QuizQuestionSchema)) by {
      assert props[4] in props;
    }
  }

  lemma DayShapeConforms(j: Json)
    requires DailyPlanShape(j)
    ensures Conforms(j, DailyPlanSchema)
  {
  }

  lemma FlashcardsConformIffReadable(js: seq<Json>)
    ensures (forall i :: 0 <= i < |js| ==> Conforms(js[i], FlashcardSchema)) <==> ReadAll(js, FlashcardFromJson).Some?
  {
    forall v ensures Conforms(v, FlashcardSchema) <==> FlashcardFromJson(v).Some? {
      FlashcardConformsIffReadable(v);
    }
    ElementsConformIffReadable(js, FlashcardSchema, FlashcardFromJson);
  }

  lemma QuizConformsIffReadable(js: seq<Json>)
    ensures (forall i :: 0 <= i < |js| ==> Conforms(js[i], QuizQuestionSchema)) <==> ReadAll(js, QuizQuestionFromJson).Some?
  {
    forall v ensures Conforms(v, QuizQuestionSchema) <==> QuizQuestionFromJson(v).Some? {
      QuizQuestionConformsIffReadable(v);
    }
    ElementsConformIffReadable(js, QuizQuestionSchema, QuizQuestionFromJson);
  }

  lemma DailyPlanShapeIffReadable(j: Json)
    ensures DailyPlanShape(j) <==> DailyPlanFromJson(j).Some?
  {
    if j.JObject? && "flashcards" in j.fields && j.fields["flashcards"].JArray? {
      FlashcardsConformIffReadable(j.fields["flashcards"].elems);
    }
    if j.JObject? && "quiz" in j.fields && j.fields["quiz"].JArray? {
      QuizConformsIffReadable(j.fields["quiz"].elems);
    }
  }

  lemma DailyPlanConformsIffReadable(j: Json)
    ensures Conforms(j, DailyPlanSchema) <==> DailyPlanFromJson(j).Some?
  {
    DailyPlanConformsIffShape(j);
    DailyPlanShapeIffReadable(j);
  }

  /** The top-level conditions of the schema, with the schedule's elements left to the per-day schema. */
  predicate PlanShape(j: Json) {
    && j.JObject?
    && "planName" in j.fields && j.fields["planName"].JString?
    && "totalDays" in j.fields && j.fields["totalDays"].JNumber?
    && "schedule" in j.fields && j.fields["schedule"].JArray?
    && (forall i :: 0 <= i < |j.fields["schedule"].elems| ==> Conforms(j.fields["schedule"].elems[i], DailyPlanSchema))
  }

  lemma PlanConformsIffShape(j: Json)
    ensures Conforms(j, StudyPlanSchema) <==> PlanShape(j)
  {
    if Conforms(j, StudyPlanSchema) {
      ConformingPlanHasShape(j);
    }
    if PlanShape(j) {
      PlanShapeConforms(j);
    }
  }

  lemma ConformingPlanHasShape(j: Json)
    requires Conforms(j, StudyPlanSchema)
    ensures PlanShape(j)
  {
    var props := StudyPlanSchema.properties;
    assert j.JObject? && forall k :: k in StudyPlanSchema.required ==> k in j.fields;
    assert Conforms(j.fields["planName"], StringSchema) by {
      assert props[0] in props;
    }
    assert Conforms(j.fields["totalDays"], IntegerSchema) by {
      assert props[1] in props;
    }
    assert Conforms(j.fields["schedule"], ArraySchema(DailyPlanSchema)) by {
      assert props[2] in props;
    }
  }

  lemma PlanShapeConforms(j: Json)
    requires PlanShape(j)
    ensures Conforms(j, StudyPlanSchema)
  {
    var props := StudyPlanSchema.properties;
    assert Conforms(j.fields["schedule"], ArraySchema(DailyPlanSchema));
    forall p | p in props && p.name in j.fields ensures Conforms(j.fields[p.name], p.schema) {
    }
  }

  /** A parsed reply conforms to `studyPlanSchema` exactly when it can be read as a `StudyPlanResponse`. */
  lemma PlanConformsIffReadable(j: Json)
    ensures Conforms(j, StudyPlanSchema) <==> PlanFromJson(j).Some?
  {
    PlanConformsIffShape(j);
    if j.JObject? && "schedule" in j.fields && j.fields["schedule"].JArray? {
      forall v ensures Conforms(v, DailyPlanSchema) <==> DailyPlanFromJson(v).Some? {
        DailyPlanConformsIffReadable(v);
      }
      ElementsConformIffReadable(j.fields["schedule"].elems, DailyPlanSchema, DailyPlanFromJson);
    }
  }

  // ---- round trips ----

  /** What the reader finds in each field of a written quiz item. */
  lemma QuizQuestionToJsonFields(q: QuizQuestion)
    ensures StringField(QuizQuestionToJson(q), "question") == Some(q.question)
    ensures ArrayField(QuizQuestionToJson(q), "options") == Some(WriteAll(q.options, StringToJson))
    ensures IntegerField(QuizQuestionToJson(q), "correctAnswerIndex") == Some(q.correctAnswerIndex)
  {
  }

  lemma QuizQuestionRoundTrip(q: QuizQuestion)
    ensures QuizQuestionFromJson(QuizQuestionToJson(q)) == Some(q)
  {
    QuizQuestionToJsonFields(q);
    ReadAllWriteAll(q.options, StringToJson, StringOf);
  }

  lemma FlashcardsRoundTrip(cs: seq<Flashcard>)
    ensures ReadAll(WriteAll(cs, FlashcardToJson), FlashcardFromJson) == Some(cs)
  {
    ReadAllWriteAll(cs, FlashcardToJson, FlashcardFromJson);
  }

  lemma QuizRoundTrip(qs: seq<QuizQuestion>)
    ensures ReadAll(WriteAll(qs, QuizQuestionToJson), QuizQuestionFromJson) == Some(qs)
  {
    forall q ensures QuizQuestionFromJson(QuizQuestionToJson(q)) == Some(q) {
      QuizQuestionRoundTrip(q);
    }
    ReadAllWriteAll(qs, QuizQuestionToJson, QuizQuestionFromJson);
  }

  /** What the reader finds in each field of a written day. */
  lemma DailyPlanToJsonFields(d: DailyPlan)
    ensures IntegerField(DailyPlanToJson(d), "day") == Some(d.day)
    ensures StringField(DailyPlanToJson(d), "topic") == Some(d.topic)
    ensures StringField(DailyPlanToJson(d), "summary") == Some(d.summary)
    ensures ArrayField(DailyPlanToJson(d), "flashcards") == Some(WriteAll(d.flashcards, FlashcardToJson))
    ensures ArrayField(DailyPlanToJson(d), "quiz") == Some(WriteAll(d.quiz, QuizQuestionToJson))
  {
  }

  lemma DailyPlanRoundTrip(d: DailyPlan)
    ensures DailyPlanFromJson(DailyPlanToJson(d)) == Some(d)
  {
    DailyPlanToJsonFields(d);
    FlashcardsRoundTrip(d.flashcards);
    QuizRoundTrip(d.quiz);
  }

  /** What the reader finds in each field of a written plan. */
  lemma PlanToJsonFields(p: StudyPlanResponse)
    ensures StringField(PlanToJson(p), "planName") == Some(p.planName)
    ensures IntegerField(PlanToJson(p), "totalDays") == Some(p.totalDays)
    ensures ArrayField(PlanToJson(p), "schedule") == Some(WriteAll(p.schedule, DailyPlanToJson))
  {
  }

  /** Reading a written plan gives the plan back: the writer loses nothing the reader needs. */
  lemma PlanRoundTrip(p: StudyPlanResponse)
    ensures PlanFromJson(PlanToJson(p)) == Some(p)
  {
    PlanToJsonFields(p);
    forall d ensures DailyPlanFromJson(DailyPlanToJson(d)) == Some(d) {
      DailyPlanRoundTrip(d);
    }
    ReadAllWriteAll(p.schedule, DailyPlanToJson, DailyPlanFromJson);
  }

  /**
   * Every `StudyPlanResponse` value, written as JSON, conforms to `studyPlanSchema`:
   * the record types declare every field the schema requires, at every level.
   */
  lemma PlanToJsonConforms(p: StudyPlanResponse)
    ensures Conforms(PlanToJson(p), StudyPlanSchema)
  {
    PlanRoundTrip(p);
    PlanConformsIffReadable(PlanToJson(p));
  }

  /** Every object inside a day, the day included, has all of its required fields. */
  predicate DayHasRequiredFields(d: Json) {
    && HasRequired(d, DailyPlanSchema)
    && "flashcards" in d.fields && d.fields["flashcards"].JArray?
    && "quiz" in d.fields && d.fields["quiz"].JArray?
    && (forall c :: c in d.fields["flashcards"].elems ==> HasRequired(c, FlashcardSchema))
    && (forall q :: q in d.fields["quiz"].elems ==> HasRequired(q, QuizQuestionSchema))
  }

  /** Every object inside a plan, the plan included, has all of its required fields. */
  predicate PlanHasRequiredFields(j: Json) {
    && HasRequired(j, StudyPlanSchema)
    && "schedule" in j.fields && j.fields["schedule"].JArray?
    && (forall d :: d in j.fields["schedule"].elems ==> DayHasRequiredFields(d))
  }

  lemma ConformingDayHasRequiredFields(d: Json)
    requires Conforms(d, DailyPlanSchema)
    ensures DayHasRequiredFields(d)
  {
    ConformingDayHasShape(d);
    forall c | c in d.fields["flashcards"].elems ensures HasRequired(c, FlashcardSchema) {
      ConformingObjectHasRequired(c, FlashcardSchema);
    }
    forall q | q in d.fields["quiz"].elems ensures HasRequired(q, QuizQuestionSchema) {
      ConformingObjectHasRequired(q, QuizQuestionSchema);
    }
  }

  /** A reply conforms to `studyPlanSchema` only if every object in it has all of its required fields. */
  lemma ConformingPlanHasRequiredFields(j: Json)
    requires Conforms(j, StudyPlanSchema)
    ensures PlanHasRequiredFields(j)
  {
    ConformingPlanHasShape(j);
    forall d | d in j.fields["schedule"].elems ensures DayHasRequiredFields(d) {
      ConformingDayHasRequiredFields(d);
    }
  }
}

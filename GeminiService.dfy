/**
 * `generateStudyPlan`: one request to the text-generation service, carrying the
 * (truncated) material, the day count and `studyPlanSchema`; an empty reply is an
 * error; every error is re-thrown to the caller.
 *
 * The service call and `JSON.parse` are foreign: they are the parameters `api` (the
 * reply the service gives to a request) and `parse` (what `JSON.parse` does with a text).
 */
module GeminiService {
  import opened Wrappers
  import opened JsString
  import opened Json
  import opened PlanSchema
  import Types

  /** How many characters of the material are embedded in the prompt. */
  const ContentLimit: nat := 30000

  const ModelName := "gemini-2.5-flash"
  const ResponseMimeType := "application/json"
  const EmptyResponseMessage := "No response from Gemini"

  /** A thrown JavaScript error. */
  datatype JsError = JsError(message: string)

  /**
   * The prompt, represented by the two values interpolated into its fixed wording:
   * the number of days and the embedded material.
   */
  datatype Prompt = Prompt(days: int, material: string)

  datatype Config = Config(responseMimeType: string, responseSchema: Schema, thinkingBudget: int)

  /** The argument of `ai.models.generateContent`. */
  datatype Request = Request(model: string, contents: Prompt, config: Config)

  /** How the `generateContent` promise settles: a response whose `text` may be absent, or a rejection. */
  datatype Reply = Responded(text: Option<string>) | Rejected(error: JsError)

  /** What `JSON.parse` does with a text: a value, or a thrown `SyntaxError`. */
  datatype ParseResult = Parsed(value: Json) | ParseThrew(error: JsError)

  /** One invocation: the requests it issued and how its promise settled. */
  datatype Generation = Generation(requests: seq<Request>, result: Result<Json, JsError>)

  /** `content.substring(0, 30000)`. */
  function EmbeddedMaterial(content: string): (r: string)
    ensures |r| == if |content| <= ContentLimit then |content| else ContentLimit
    ensures r == content[..|r|]
  {
    SubstringFromZero(content, ContentLimit);
    Substring(content, 0, ContentLimit)
  }

  /** Material within the limit is embedded unchanged and in full. */
  lemma ShortMaterialEmbeddedWhole(content: string)
    requires |content| <= ContentLimit
    ensures EmbeddedMaterial(content) == content
  {
  }

  /** Material beyond the limit loses exactly its tail after the first 30,000 characters. */
  lemma LongMaterialTruncated(content: string)
    requires |content| > ContentLimit
    ensures EmbeddedMaterial(content) + content[ContentLimit..] == content
  {
    assert content[..ContentLimit] + content[ContentLimit..] == content;
  }

  /** The request built for `content` and `days`. */
  function BuildRequest(content: string, days: int): (r: Request)
    ensures r.contents.days == days
    ensures r.contents.material == EmbeddedMaterial(content)
    ensures r.config.responseSchema == StudyPlanSchema && r.config.responseMimeType == ResponseMimeType
    ensures r.config.thinkingBudget == 0 && r.model == ModelName
  {
    Request(ModelName, Prompt(days, EmbeddedMaterial(content)), Config(ResponseMimeType, StudyPlanSchema, 0))
  }

  /** `!text` for the `text` of a response: `undefined` and the empty string are the falsy values. */
  predicate IsEmptyText(text: Option<string>)
    ensures IsEmptyText(text) <==> text.None? || |text.value| == 0
  {
    match text
    case None => true
    case Some(t) => t == ""
  }

  /**
   * `generateStudyPlan(content, days)`: one request, then the reply's text parsed as JSON and
   * returned without any check of its shape; every error is re-thrown as it is.
   */
  function GenerateStudyPlan(content: string, days: int, api: Request -> Reply, parse: string -> ParseResult): (g: Generation)
    ensures g.requests == [BuildRequest(content, days)]
    ensures var reply := api(BuildRequest(content, days));
      && (g.result.Ok? <==> reply.Responded? && !IsEmptyText(reply.text) && parse(reply.text.value).Parsed?)
      && (g.result.Ok? ==> g.result.value == parse(reply.text.value).value)
      && (reply.Rejected? ==> g.result == Err(reply.error))
      && (reply.Responded? && IsEmptyText(reply.text) ==> g.result == Err(JsError(EmptyResponseMessage)))
      && (reply.Responded? && !IsEmptyText(reply.text) && parse(reply.text.value).ParseThrew? ==>
            g.result == Err(parse(reply.text.value).error))
  {
    var request := BuildRequest(content, days);
    var result :=
      match api(request)
      case Rejected(e) => Err(e)
      case Responded(text) =>
        if IsEmptyText(text) then Err(JsError(EmptyResponseMessage))
        else match parse(text.value)
          case ParseThrew(e) => Err(e)
          case Parsed(v) => Ok(v);
    Generation([request], result)
  }

  /**
   * The reply is returned without checking its shape: a parsed value that does not conform
   * to `studyPlanSchema` at all (here `null`) is returned as the plan.
   */
  lemma NonConformingReplyReturned(content: string, days: int)
    ensures var g := GenerateStudyPlan(content, days, _ => Responded(Some("null")), _ => Parsed(JNull));
      g.result == Ok(JNull) && !Conforms(JNull, StudyPlanSchema)
  {
  }

  /**
   * Nor is the plan checked against the request: a conforming reply whose `totalDays`
   * differs from `days` and whose schedule is empty is returned as it is.
   */
  lemma MismatchedPlanReturned(content: string, days: int)
    ensures var plan := PlanToJson(Types.StudyPlanResponse("plan", days + 1, []));
      && Conforms(plan, StudyPlanSchema)
      && GenerateStudyPlan(content, days, _ => Responded(Some("{}")), _ => Parsed(plan)).result == Ok(plan)
  {
    PlanToJsonConforms(Types.StudyPlanResponse("plan", days + 1, []));
  }
}

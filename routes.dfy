/** The four POST handlers under `/ai`. Each reads fields out of the request body,
    answers 400 when a required field is missing, otherwise awaits the gateway and
    wraps its result under one key; anything thrown on the way becomes a 500 with a
    fixed message that never carries the error itself. */
module Routes {
  import opened Js
  import opened Fallback
  import opened Gateway

  /** A status code and a JSON body; `res.json(..)` without a status is a 200. */
  datatype Response = Response(status: nat, body: Json)

  function Message(text: string): Json {
    Object(map["message" := Str(text)])
  }

  function Wrapped(key: string, v: Json): Json {
    Object(map[key := v])
  }

  predicate ValidStatus(r: Response) {
    r.status == 200 || r.status == 400 || r.status == 500
  }

  /** POST /ai/generate-description */
  function GenerateDescription(svc: GeminiService, body: Json, reply: Reply<string>): (r: Response)
    reads svc
    ensures ValidStatus(r)
    ensures r.status == 500 <==> (Nullish(body)
      || (Truthy(Prop(body, "title")) && (!Printable(Prop(body, "title")) || !Printable(Prop(body, "context")))))
    ensures r.status == 400 <==> !Nullish(body) && !Truthy(Prop(body, "title"))
    ensures r.status == 400 ==> r.body == Message("Title is required")
    ensures r.status == 500 ==> r.body == Message("Failed to generate task description")
    ensures r.status == 200 ==> r.body == Wrapped("description",
      Str(svc.GenerateTaskDescription(Prop(body, "title"), Prop(body, "context"), reply).value))
  {
    // `const { title, context } = req.body` throws when the body is null
    match GetProp(body, "title")
    case Threw => Response(500, Message("Failed to generate task description"))
    case Normal(title) =>
      if !Truthy(title) then Response(400, Message("Title is required"))
      else
        match svc.GenerateTaskDescription(title, Prop(body, "context"), reply)
        case Threw => Response(500, Message("Failed to generate task description"))
        case Normal(description) => Response(200, Wrapped("description", Str(description)))
  }

  /** POST /ai/suggest-priority */
  function SuggestPriority(svc: GeminiService, body: Json, reply: Reply<string>): (r: Response)
    reads svc
    ensures ValidStatus(r)
    ensures r.status == 500 <==> (Nullish(body)
      || (Truthy(Prop(body, "title")) && Truthy(Prop(body, "description")) && !svc.available
          && (!Printable(Prop(body, "title")) || !Printable(Prop(body, "description")))))
    ensures r.status == 400 <==>
      !Nullish(body) && (!Truthy(Prop(body, "title")) || !Truthy(Prop(body, "description")))
    ensures r.status == 400 ==> r.body == Message("Title and description are required")
    ensures r.status == 500 ==> r.body == Message("Failed to suggest priority")
    ensures r.status == 200 ==> r.body == Wrapped("priority",
      Str(svc.SuggestPriority(Prop(body, "title"), Prop(body, "description"), reply).value))
  {
    match GetProp(body, "title")
    case Threw => Response(500, Message("Failed to suggest priority"))
    case Normal(title) =>
      var description := Prop(body, "description");
      if !Truthy(title) || !Truthy(description) then
        Response(400, Message("Title and description are required"))
      else
        match svc.SuggestPriority(title, description, reply)
        case Threw => Response(500, Message("Failed to suggest priority"))
        case Normal(priority) => Response(200, Wrapped("priority", Str(priority)))
  }

  /** POST /ai/task-suggestions: no field is required. */
  function TaskSuggestions(svc: GeminiService, body: Json, reply: Reply<Json>): (r: Response)
    reads svc
    ensures r.status == 200 || r.status == 500
    ensures r.status == 500 <==> Nullish(body)
    ensures r.status == 500 ==> r.body == Message("Failed to generate task suggestions")
    ensures r.status == 200 ==> r.body == Wrapped("suggestions",
      svc.GenerateTaskSuggestions(DefaultEmpty(Prop(body, "projectContext")),
                                  DefaultEmpty(Prop(body, "employeeRole")), reply))
  {
    match GetProp(body, "projectContext")
    case Threw => Response(500, Message("Failed to generate task suggestions"))
    case Normal(projectContext) =>
      var employeeRole := Prop(body, "employeeRole");
      var suggestions := svc.GenerateTaskSuggestions(DefaultEmpty(projectContext), DefaultEmpty(employeeRole), reply);
      Response(200, Wrapped("suggestions", suggestions))
  }

  /** POST /ai/analyze-performance: `tasks` must be an array. */
  function AnalyzePerformance(svc: GeminiService, body: Json, reply: Reply<Json>): (r: Response)
    reads svc
    ensures ValidStatus(r)
    ensures r.status == 400 <==> !Nullish(body) && !Prop(body, "tasks").Array?
    ensures r.status == 400 ==> r.body == Message("Tasks array is required")
    ensures r.status == 500 ==> r.body == Message("Failed to analyze task performance")
    ensures r.status == 500 <==> (Nullish(body) || (Prop(body, "tasks").Array?
      && (!AllReadable(Prop(body, "tasks").items)
          || (!(svc.available && reply.Answer?) && !AllCountable(Prop(body, "tasks").items)))))
    ensures r.status == 200 ==> r.body == Wrapped("analysis",
      svc.AnalysisOutcome(Prop(body, "tasks").items, reply).value)
  {
    match GetProp(body, "tasks")
    case Threw => Response(500, Message("Failed to analyze task performance"))
    case Normal(tasks) =>
      if !Truthy(tasks) || !tasks.Array? then Response(400, Message("Tasks array is required"))
      else
        match svc.AnalysisOutcome(tasks.items, reply)
        case Threw => Response(500, Message("Failed to analyze task performance"))
        case Normal(analysis) => Response(200, Wrapped("analysis", analysis))
  }

  /** A request turned away with 400 never reaches the model: the response is the
      same whatever the model would have answered. */
  lemma RejectedRequestsIgnoreModel(svc: GeminiService, body: Json,
                                    s1: Reply<string>, s2: Reply<string>,
                                    j1: Reply<Json>, j2: Reply<Json>)
    ensures GenerateDescription(svc, body, s1).status == 400 ==>
      GenerateDescription(svc, body, s1) == GenerateDescription(svc, body, s2)
    ensures SuggestPriority(svc, body, s1).status == 400 ==>
      SuggestPriority(svc, body, s1) == SuggestPriority(svc, body, s2)
    ensures AnalyzePerformance(svc, body, j1).status == 400 ==>
      AnalyzePerformance(svc, body, j1) == AnalyzePerformance(svc, body, j2)
  {
  }

  /** An empty body `{}` and a body with only a title are turned away. */
  lemma MissingFieldsRejected(svc: GeminiService, s: Reply<string>)
    ensures GenerateDescription(svc, Object(map[]), s).status == 400
    ensures SuggestPriority(svc, Object(map["title" := Str("x")]), s).status == 400
  {
  }

  /** Without the model, a priority request that is answered with 200 is answered
      with one of the three labels. */
  lemma PriorityRouteAnswersLabel(svc: GeminiService, body: Json, reply: Reply<string>)
    requires !svc.available
    requires SuggestPriority(svc, body, reply).status == 200
    ensures SuggestPriority(svc, body, reply).body.Object?
    ensures "priority" in SuggestPriority(svc, body, reply).body.fields
    ensures var p := SuggestPriority(svc, body, reply).body.fields["priority"];
      p.Str? && IsLabelText(p.s)
  {
  }
}

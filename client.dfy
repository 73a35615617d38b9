/** The browser-side `AIService`. Each call posts to its endpoint and hands back one
    field of the response; when the request fails (or its body is `null`) it
    computes the same fallback the server would. A fallback can still throw: the
    template and the classifier on a value that cannot be converted to a string, the
    analysis on a null or undefined task or a priority that cannot become a key. */
module Client {
  import opened Js
  import opened Fallback

  /** How an axios POST ended: a 2xx response with its parsed body, or a rejection
      (no connection, or a status outside 2xx). */
  datatype Http = Ok(data: Json) | Rejected

  /** `response.data.<key>`, read inside the `try`: a rejection or a null body
      sends control to the `catch`. */
  function ResponseField(http: Http, key: string): (r: Completion<Json>)
    ensures r.Threw? <==> http.Rejected? || Nullish(http.data)
  {
    match http
    case Rejected => Threw
    case Ok(data) => GetProp(data, key)
  }

  function GenerateTaskDescription(title: Json, context: Json, http: Http): (r: Completion<Json>)
    ensures ResponseField(http, "description").Normal? ==> r == ResponseField(http, "description")
    ensures ResponseField(http, "description").Threw? ==>
      (r.Threw? <==> !Printable(title) || !Printable(context))
    ensures ResponseField(http, "description").Threw? && r.Normal? ==>
      r.value == Str(DescriptionText(title, context))
  {
    match ResponseField(http, "description")
    case Normal(description) => Normal(description)
    case Threw =>
      match DescriptionFallback(title, DefaultEmpty(context))
      case Threw => Threw
      case Normal(text) => Normal(Str(text))
  }

  function SuggestPriority(title: Json, description: Json, http: Http): (r: Completion<Json>)
    ensures ResponseField(http, "priority").Normal? ==> r == ResponseField(http, "priority")
    ensures ResponseField(http, "priority").Threw? ==>
      (r.Threw? <==> !Printable(title) || !Printable(description))
    ensures ResponseField(http, "priority").Threw? && r.Normal? ==>
      r.value == Str(LabelText(Classify(title, description).value)) && IsLabelText(r.value.s)
  {
    match ResponseField(http, "priority")
    case Normal(priority) => Normal(priority)
    case Threw =>
      match Classify(title, description)
      case Threw => Threw
      case Normal(l) => Normal(Str(LabelText(l)))
  }

  function GetTaskSuggestions(projectContext: Json, employeeRole: Json, http: Http): (r: Json)
    ensures ResponseField(http, "suggestions").Normal? ==>
      r == ResponseField(http, "suggestions").value
    ensures ResponseField(http, "suggestions").Threw? ==>
      r == SuggestionsToJson(FallbackSuggestions()) && |r.items| == 5
  {
    match ResponseField(http, "suggestions")
    case Normal(suggestions) => suggestions
    case Threw => SuggestionsToJson(FallbackSuggestions())
  }

  /** What `analyzeTaskPerformance` settles to: the response's analysis, or the
      fallback, which throws when some task is null or undefined or has a priority
      that cannot become a property key. */
  function AnalysisOutcome(tasks: seq<Json>, http: Http): (r: Completion<Json>)
    ensures ResponseField(http, "analysis").Normal? ==> r == ResponseField(http, "analysis")
    ensures ResponseField(http, "analysis").Threw? ==>
      (r.Threw? <==> !AllCountable(tasks))
    ensures ResponseField(http, "analysis").Threw? && AllCountable(tasks) ==>
      r == Normal(AnalysisToJson(AnalysisFallback(tasks).value))
  {
    match ResponseField(http, "analysis")
    case Normal(analysis) => Normal(analysis)
    case Threw =>
      match AnalysisFallback(tasks)
      case Threw => Threw
      case Normal(a) => Normal(AnalysisToJson(a))
  }

  method AnalyzeTaskPerformance(tasks: seq<Json>, http: Http) returns (r: Completion<Json>)
    ensures r == AnalysisOutcome(tasks, http)
  {
    var field := ResponseField(http, "analysis");
    if field.Normal? {
      return field;
    }
    var fallback := ComputeAnalysisFallback(tasks);
    match fallback
    case Threw =>
      r := Threw;
    case Normal(a) =>
      r := Normal(AnalysisToJson(a));
  }
}

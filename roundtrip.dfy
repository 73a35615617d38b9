/** A request followed from the browser's `AIService` through the `/ai` route and the
    gateway and back. The browser and the server carry the same fallback rules, so
    what the user sees does not depend on where the fallback ran. */
module RoundTrip {
  import opened Js
  import opened Fallback
  import opened Gateway
  import Routes
  import Client

  /** What axios makes of a route's response: the body of a 2xx response when the
      server was reached, a rejection for any other status or no connection. */
  function Deliver(reached: bool, resp: Routes.Response): (h: Client.Http)
    ensures h.Ok? <==> reached && 200 <= resp.status < 300
    ensures h.Ok? ==> h.data == resp.body
  {
    if reached && 200 <= resp.status < 300 then Client.Ok(resp.body) else Client.Rejected
  }

  function DescriptionBody(title: string, context: string): Json {
    Object(map["title" := Str(title), "context" := Str(context)])
  }

  function PriorityBody(title: string, description: string): Json {
    Object(map["title" := Str(title), "description" := Str(description)])
  }

  function SuggestionsBody(projectContext: string, employeeRole: string): Json {
    Object(map["projectContext" := Str(projectContext), "employeeRole" := Str(employeeRole)])
  }

  function AnalysisBody(tasks: seq<Json>): Json {
    Object(map["tasks" := Array(tasks)])
  }

  /** The description the browser ends up with. */
  function SeenDescription(svc: GeminiService, title: string, context: string,
                           reply: Reply<string>, reached: bool): Completion<Json>
    reads svc
  {
    var resp := Routes.GenerateDescription(svc, DescriptionBody(title, context), reply);
    Client.GenerateTaskDescription(Str(title), Str(context), Deliver(reached, resp))
  }

  /** The priority the browser ends up with. */
  function SeenPriority(svc: GeminiService, title: string, description: string,
                        reply: Reply<string>, reached: bool): Completion<Json>
    reads svc
  {
    var resp := Routes.SuggestPriority(svc, PriorityBody(title, description), reply);
    Client.SuggestPriority(Str(title), Str(description), Deliver(reached, resp))
  }

  /** The suggestions the browser ends up with. */
  function SeenSuggestions(svc: GeminiService, projectContext: string, employeeRole: string,
                           reply: Reply<Json>, reached: bool): Json
    reads svc
  {
    var resp := Routes.TaskSuggestions(svc, SuggestionsBody(projectContext, employeeRole), reply);
    Client.GetTaskSuggestions(Str(projectContext), Str(employeeRole), Deliver(reached, resp))
  }

  /** What the browser's analysis call settles to. */
  function SeenAnalysis(svc: GeminiService, tasks: seq<Json>, reply: Reply<Json>,
                        reached: bool): Completion<Json>
    reads svc
  {
    var resp := Routes.AnalyzePerformance(svc, AnalysisBody(tasks), reply);
    Client.AnalysisOutcome(tasks, Deliver(reached, resp))
  }

  /** Without a model answer, the description is the template, whether the server
      was reached or not and whether the title was accepted or not. */
  lemma DescriptionWithoutModel(svc: GeminiService, title: string, context: string,
                                reply: Reply<string>, reached: bool)
    requires !svc.available || reply.CallFailed?
    ensures SeenDescription(svc, title, context, reply, reached)
      == Normal(Str(DescriptionText(Str(title), Str(context))))
  {
  }

  /** For text typed into the dialog, the browser always ends up with a text
      priority: one of the three labels, or the model's trimmed answer; without the
      model, exactly the classifier's label. */
  lemma PriorityAlwaysText(svc: GeminiService, title: string, description: string,
                           reply: Reply<string>, reached: bool)
    ensures var p := SeenPriority(svc, title, description, reply, reached);
      p.Normal? && p.value.Str? && (IsLabelText(p.value.s)
        || (svc.available && reply.Answer? && p.value.s == Trim(reply.value)))
    ensures !svc.available ==>
      SeenPriority(svc, title, description, reply, reached)
        == Normal(Str(LabelText(ClassifyText(title + " " + description))))
  {
  }

  /** Without a model answer, the browser gets the five stock suggestions. */
  lemma SuggestionsWithoutModel(svc: GeminiService, projectContext: string, employeeRole: string,
                                reply: Reply<Json>, reached: bool)
    requires !svc.available || reply.CallFailed?
    ensures SeenSuggestions(svc, projectContext, employeeRole, reply, reached)
      == SuggestionsToJson(FallbackSuggestions())
  {
  }

  /** The browser's analysis call throws exactly when some task is null or
      undefined, or when some priority cannot become a property key and the model's
      answer did not reach the browser; without a model answer it yields the
      counting summary. */
  lemma AnalysisThrowsOnlyOnBadTasks(svc: GeminiService, tasks: seq<Json>,
                                     reply: Reply<Json>, reached: bool)
    ensures SeenAnalysis(svc, tasks, reply, reached).Threw? <==>
      !AllReadable(tasks) || (!AllCountable(tasks) && !(reached && svc.available && reply.Answer?))
    ensures AllCountable(tasks) && (!svc.available || reply.CallFailed?) ==>
      SeenAnalysis(svc, tasks, reply, reached)
        == Normal(AnalysisToJson(AnalysisFallback(tasks).value))
  {
  }
}

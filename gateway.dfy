/** The server-side AI gateway, `GeminiService`: an availability flag fixed when the
    service is built, and four operations that either take the language model's
    answer or fall back to the deterministic rules. The model call itself is not
    modelled: each operation receives what that call produced as an input. */
module Gateway {
  import opened Js
  import opened Fallback

  /** What consulting the model produced: its answer, or an error thrown by the
      call (for the two structured answers, also a failed `JSON.parse`). */
  datatype Reply<+T> = Answer(value: T) | CallFailed

  class GeminiService {
    /** `isGeminiAvailable` */
    var available: bool

    /** `libraryLoaded`: the client package could be loaded; `apiKey`: the key in
        the environment, if any; `clientStarts`: building the client and the model
        handle did not throw. */
    constructor (libraryLoaded: bool, apiKey: Option<string>, clientStarts: bool)
      ensures available <==> libraryLoaded && apiKey.Some? && apiKey.value != "" && clientStarts
    {
      available := libraryLoaded && apiKey.Some? && apiKey.value != "";
      new;
      if available {
        if !clientStarts {
          available := false;
        }
      }
    }

    /** The description: the model's trimmed answer, or the template both when the
        model is unavailable and when its call fails. A title or context that cannot
        be converted to a string makes the prompt throw before the model is asked,
        and the template in the error handler then throws too. */
    function GenerateTaskDescription(title: Json, context: Json, reply: Reply<string>): (r: Completion<string>)
      reads this
      ensures r.Threw? <==> !Printable(title) || !Printable(context)
      ensures r.Normal? && (!available || reply.CallFailed?) ==>
        r.value == DescriptionText(title, DefaultEmpty(context))
      ensures r.Normal? && available && reply.Answer? ==> r.value == Trim(reply.value)
    {
      var context := DefaultEmpty(context);
      if available && Printable(title) && Printable(context) && reply.Answer? then
        Normal(Trim(reply.value))
      else DescriptionFallback(title, context)
    }

    /** The priority: the keyword classifier when the model is unavailable, which
        throws when the title or description cannot be converted to a string, but the
        constant "Important" when the model call fails (building the prompt from such
        a value fails the same way); the model's trimmed answer is passed on without
        checking it against the three labels. */
    function SuggestPriority(title: Json, description: Json, reply: Reply<string>): (r: Completion<string>)
      reads this
      ensures r.Threw? <==> !available && (!Printable(title) || !Printable(description))
      ensures !available && r.Normal? ==>
        r.value == LabelText(Classify(title, description).value) && IsLabelText(r.value)
      ensures available && (reply.CallFailed? || !Printable(title) || !Printable(description)) ==>
        r == Normal("Important")
      ensures available && reply.Answer? && Printable(title) && Printable(description) ==>
        r == Normal(Trim(reply.value))
    {
      if !available then
        match Classify(title, description)
        case Threw => Threw
        case Normal(l) => Normal(LabelText(l))
      else if Printable(title) && Printable(description) && reply.Answer? then
        Normal(Trim(reply.value))
      else Normal("Important")
    }

    /** The suggestions: the parsed answer as it is, or the five stock suggestions,
        also when a truthy context or role cannot be converted to a string for the
        prompt. */
    function GenerateTaskSuggestions(projectContext: Json, employeeRole: Json, reply: Reply<Json>): (r: Json)
      reads this
      ensures !available || reply.CallFailed? || !Printable(projectContext) || !Printable(employeeRole)
        ==> r == SuggestionsToJson(FallbackSuggestions())
      ensures available && reply.Answer? && Printable(projectContext) && Printable(employeeRole)
        ==> r == reply.value
    {
      if available && Printable(projectContext) && Printable(employeeRole) && reply.Answer? then
        reply.value
      else SuggestionsToJson(FallbackSuggestions())
    }

    /** What `analyzeTaskPerformance` settles to. A null or undefined task throws on
        both paths: building the prompt reads each task's fields, and the fallback the
        error handler then runs reads them again. A priority that cannot become a
        property key throws only in the fallback; the prompt carries it as JSON. */
    function AnalysisOutcome(tasks: seq<Json>, reply: Reply<Json>): (r: Completion<Json>)
      reads this
      ensures r.Threw? <==>
        !AllReadable(tasks) || (!(available && reply.Answer?) && !AllCountable(tasks))
      ensures r.Normal? && (!available || reply.CallFailed?) ==>
        r == Normal(AnalysisToJson(AnalysisFallback(tasks).value))
      ensures r.Normal? && available && reply.Answer? ==> r == Normal(reply.value)
    {
      if available && AllReadable(tasks) && reply.Answer? then Normal(reply.value)
      else
        match AnalysisFallback(tasks)
        case Threw => Threw
        case Normal(a) => Normal(AnalysisToJson(a))
    }

    method AnalyzeTaskPerformance(tasks: seq<Json>, reply: Reply<Json>) returns (r: Completion<Json>)
      ensures r == AnalysisOutcome(tasks, reply)
    {
      if available && AllReadable(tasks) && reply.Answer? {
        return Normal(reply.value);
      }
      var fallback := ComputeAnalysisFallback(tasks);
      match fallback
      case Threw =>
        r := Threw;
      case Normal(a) =>
        r := Normal(AnalysisToJson(a));
    }
  }

  /** The two fallback paths of `suggestPriority` disagree: on the same text the
      classifier says "Most Important" while a failed model call says "Important". */
  lemma PriorityFallbackAsymmetry(down: GeminiService, up: GeminiService)
    requires !down.available && up.available
    ensures down.SuggestPriority(Str("urgent fix"), Str("asap please"), CallFailed) == Normal("Most Important")
    ensures up.SuggestPriority(Str("urgent fix"), Str("asap please"), CallFailed) == Normal("Important")
  {
    var lower := Lower("urgent fix asap please");
    assert lower == "urgent fix asap please";
    assert lower[..6] == "urgent";
  }

  /** The model's answer is not checked against the labels: any trimmed text passes. */
  lemma PriorityAnswerUnchecked(up: GeminiService)
    requires up.available
    ensures up.SuggestPriority(Str("x"), Str("y"), Answer(" High ")) == Normal("High")
    ensures !IsLabelText(up.SuggestPriority(Str("x"), Str("y"), Answer(" High ")).value)
  {
    assert IsJsSpace(' ') && !IsJsSpace('H') && !IsJsSpace('h');
    assert TrimStart(" High ") == TrimStart("High ");
    assert TrimStart("High ") == "High ";
    assert TrimEnd("High ") == TrimEnd("High");
  }
}

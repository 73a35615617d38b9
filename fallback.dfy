/** The deterministic answers of the AI layer, used whenever the language model is
    not consulted or fails: the keyword priority classifier, the description
    template, the five stock task suggestions and the counting analysis.
    The server gateway and the browser client carry identical copies of these
    rules; both are modelled by this one module. */
module Fallback {
  import opened Js

  /** The closed set of priority labels. */
  datatype Label = MostImportant | Important | LeastImportant

  function LabelText(l: Label): string {
    match l
    case MostImportant => "Most Important"
    case Important => "Important"
    case LeastImportant => "Least Important"
  }

  predicate IsLabelText(s: string) {
    s == "Most Important" || s == "Important" || s == "Least Important"
  }

  /** Urgency order of the labels. */
  function Rank(l: Label): nat {
    match l
    case LeastImportant => 0
    case Important => 1
    case MostImportant => 2
  }

  // ------------------------------------------------------------ classifier

  const UrgentKeywords: seq<string> := ["urgent", "asap", "immediate", "critical", "deadline"]
  const ImportantKeywords: seq<string> := ["important", "review", "update", "meeting"]

  /** `keywords.some(keyword => text.includes(keyword))` */
  predicate MentionsAny(text: string, keywords: seq<string>) {
    keywords != [] && (Includes(text, keywords[0]) || MentionsAny(text, keywords[1..]))
  }

  /** Some keyword of the list occurs somewhere in the text. */
  ghost predicate Occurs(text: string, keywords: seq<string>) {
    exists k, i :: k in keywords && OccursAt(text, k, i)
  }

  lemma {:induction false} MentionsAnyIff(text: string, keywords: seq<string>)
    ensures MentionsAny(text, keywords) <==> Occurs(text, keywords)
  {
    if keywords != [] {
      MentionsAnyIff(text, keywords[1..]);
      IncludesIffOccurs(text, keywords[0]);
      if Occurs(text, keywords) {
        var k, i :| k in keywords && OccursAt(text, k, i);
        if k != keywords[0] {
          assert k in keywords[1..];
          assert Occurs(text, keywords[1..]);
        }
      }
      if Occurs(text, keywords[1..]) {
        var k, i :| k in keywords[1..] && OccursAt(text, k, i);
        assert k in keywords;
      }
      if Includes(text, keywords[0]) {
        var i :| OccursAt(text, keywords[0], i);
        assert keywords[0] in keywords;
      }
    }
  }

  /** The keyword rule on a text: urgency keywords first, then importance
      keywords, matched as substrings of the lower-cased text. The label says, in
      both directions, where keywords occur: urgency wins over importance, and no
      keyword at all gives the lowest label. */
  function ClassifyText(text: string): (r: Label)
    ensures r == MostImportant <==> Occurs(Lower(text), UrgentKeywords)
    ensures r == Important <==>
      !Occurs(Lower(text), UrgentKeywords) && Occurs(Lower(text), ImportantKeywords)
    ensures r == LeastImportant <==>
      !Occurs(Lower(text), UrgentKeywords) && !Occurs(Lower(text), ImportantKeywords)
  {
    var lower := Lower(text);
    MentionsAnyIff(lower, UrgentKeywords);
    MentionsAnyIff(lower, ImportantKeywords);
    if MentionsAny(lower, UrgentKeywords) then MostImportant
    else if MentionsAny(lower, ImportantKeywords) then Important
    else LeastImportant
  }

  /** The classifier as both services call it, on `title + ' ' + description`:
      the concatenation throws when either value cannot be converted to a string. */
  function Classify(title: Json, description: Json): (r: Completion<Label>)
    ensures r.Threw? <==> !Printable(title) || !Printable(description)
    ensures r.Normal? ==> r.value == ClassifyText(ToJsString(title) + " " + ToJsString(description))
  {
    if Printable(title) && Printable(description) then
      Normal(ClassifyText(ToJsString(title) + " " + ToJsString(description)))
    else Threw
  }

  /** A keyword mentioned in a text is still mentioned once text is added around it. */
  lemma {:induction false} MentionsAnyExtend(pre: string, text: string, post: string, keywords: seq<string>)
    requires MentionsAny(text, keywords)
    ensures MentionsAny(pre + text + post, keywords)
  {
    if Includes(text, keywords[0]) {
      IncludesExtend(pre, text, post, keywords[0]);
    } else {
      MentionsAnyExtend(pre, text, post, keywords[1..]);
    }
  }

  /** Adding words before or after never lowers the suggested priority. */
  lemma ClassifyMonotone(pre: string, text: string, post: string)
    ensures Rank(ClassifyText(text)) <= Rank(ClassifyText(pre + text + post))
  {
    var whole := pre + text + post;
    LowerConcat(pre + text, post);
    LowerConcat(pre, text);
    assert Lower(whole) == Lower(pre) + Lower(text) + Lower(post);
    if MentionsAny(Lower(text), UrgentKeywords) {
      MentionsAnyExtend(Lower(pre), Lower(text), Lower(post), UrgentKeywords);
    }
    if MentionsAny(Lower(text), ImportantKeywords) {
      MentionsAnyExtend(Lower(pre), Lower(text), Lower(post), ImportantKeywords);
    }
  }

  /** Only the lower-cased text matters: "URGENT" and "urgent" are the same. */
  lemma ClassifyIgnoresCase(text: string)
    ensures ClassifyText(Lower(text)) == ClassifyText(text)
  {
    assert Lower(Lower(text)) == Lower(text);
  }

  /** An empty title and description give the lowest label. */
  lemma ClassifyEmpty()
    ensures Classify(Str(""), Str("")) == Normal(LeastImportant)
  {
    assert ToJsString(Str("")) + " " + ToJsString(Str("")) == " ";
    assert Lower(" ") == " ";
  }

  /** "urgent" together with "meeting": the urgency keyword wins. */
  lemma ClassifyUrgentMeeting()
    ensures Classify(Str("urgent"), Str("team meeting")) == Normal(MostImportant)
  {
    var lower := Lower("urgent team meeting");
    assert lower == "urgent team meeting";
    assert lower[..6] == "urgent";
  }

  /** Substring matching: "Updated" contains "update". */
  lemma ClassifyUpdated()
    ensures Classify(Str("Updated"), Str("")).Normal?
    ensures Rank(Classify(Str("Updated"), Str("")).value) >= 1
  {
    var text := ToJsString(Str("Updated")) + " " + ToJsString(Str(""));
    assert text == "Updated ";
    var lower := Lower(text);
    assert lower[..6] == "update" by {
      assert lower[0] == 'u';
    }
    assert OccursAt(lower, "update", 0);
    assert ImportantKeywords[2] == "update";
    MentionsAnyIff(lower, ImportantKeywords);
  }

  // ------------------------------------------------------ description text

  const DescriptionLead := "Complete the task: "
  const RelatedLead := "This task is related to "
  const DescriptionClosing :=
    " Please ensure all requirements are met and the task is completed according to specifications."

  /** The optional clause, present only when the context is truthy. */
  function ContextClause(context: Json): string {
    if Truthy(context) then RelatedLead + ToJsString(context) + "." else ""
  }

  /** The text of the fallback task description: it opens with the title and ends
      with the fixed closing sentence. */
  function DescriptionText(title: Json, context: Json): (r: string)
    ensures DescriptionLead + ToJsString(title) + ". " <= r
    ensures |DescriptionClosing| <= |r| && r[|r| - |DescriptionClosing|..] == DescriptionClosing
  {
    DescriptionLead + ToJsString(title) + ". " + ContextClause(context) + DescriptionClosing
  }

  /** The fallback description as the template literal evaluates it: interpolating
      the title, or a truthy context, throws when it cannot be converted to a string
      (and a context that cannot is never falsy). */
  function DescriptionFallback(title: Json, context: Json): (r: Completion<string>)
    ensures r.Threw? <==> !Printable(title) || !Printable(context)
    ensures r.Normal? ==> r.value == DescriptionText(title, context)
  {
    if Printable(title) && (Truthy(context) ==> Printable(context)) then
      Normal(DescriptionText(title, context))
    else Threw
  }

  /** Reads the context back out of a fallback description, given its title. */
  function ContextOf(title: Json, description: string): Option<string> {
    var head := DescriptionLead + ToJsString(title) + ". ";
    if |description| < |head| + |DescriptionClosing| then None
    else
      var middle := description[|head|..|description| - |DescriptionClosing|];
      if |middle| <= |RelatedLead| then None
      else Some(middle[|RelatedLead|..|middle| - 1])
  }

  /** The description carries the context clause exactly when the context is
      truthy; the context can be read back from it. */
  lemma DescriptionRoundTrip(title: Json, context: Json)
    ensures ContextOf(title, DescriptionText(title, context))
      == if Truthy(context) then Some(ToJsString(context)) else None
  {
    var head := DescriptionLead + ToJsString(title) + ". ";
    var clause := ContextClause(context);
    var d := DescriptionText(title, context);
    assert d == head + clause + DescriptionClosing;
    assert d[|head|..|d| - |DescriptionClosing|] == clause;
    if Truthy(context) {
      var c := ToJsString(context);
      assert clause[|RelatedLead|..|clause| - 1] == c;
    }
  }

  /** Two truthy contexts with different text give different descriptions. */
  lemma DescriptionSeparatesContexts(title: Json, c1: Json, c2: Json)
    requires Truthy(c1) && Truthy(c2) && ToJsString(c1) != ToJsString(c2)
    ensures DescriptionText(title, c1) != DescriptionText(title, c2)
  {
    DescriptionRoundTrip(title, c1);
    DescriptionRoundTrip(title, c2);
  }

  // ------------------------------------------------------ task suggestions

  datatype Suggestion = Suggestion(title: string, description: string, priority: Label)

  predicate HasLabel(suggestions: seq<Suggestion>, l: Label) {
    exists i :: 0 <= i < |suggestions| && suggestions[i].priority == l
  }

  const StockSuggestions: seq<Suggestion> := [
    Suggestion("Review project documentation",
      "Review and update project documentation to ensure accuracy and completeness",
      Important),
    Suggestion("Team meeting preparation",
      "Prepare agenda and materials for upcoming team meeting",
      MostImportant),
    Suggestion("Code review and testing",
      "Review code changes and perform necessary testing procedures",
      Important),
    Suggestion("Update project status",
      "Update project status and progress in the management system",
      LeastImportant),
    Suggestion("Client communication",
      "Follow up with client regarding project updates and requirements",
      Important)
  ]

  /** The five stock suggestions, in their fixed order: every label occurs among
      them and no title or description is empty. */
  function FallbackSuggestions(): (r: seq<Suggestion>)
    ensures |r| == 5
    ensures HasLabel(r, MostImportant) && HasLabel(r, Important) && HasLabel(r, LeastImportant)
    ensures forall i :: 0 <= i < |r| ==> |r[i].title| > 0 && |r[i].description| > 0
  {
    var r := StockSuggestions;
    assert r[1].priority == MostImportant;
    assert r[0].priority == Important;
    assert r[3].priority == LeastImportant;
    assert |r[0].title| > 0 && |r[1].title| > 0 && |r[2].title| > 0;
    assert |r[3].title| > 0 && |r[4].title| > 0;
    assert |r[0].description| > 0 && |r[1].description| > 0 && |r[2].description| > 0;
    assert |r[3].description| > 0 && |r[4].description| > 0;
    r
  }

  function SuggestionToJson(s: Suggestion): Json {
    Object(map["title" := Str(s.title), "description" := Str(s.description),
               "priority" := Str(LabelText(s.priority))])
  }

  function SuggestionsToJson(ss: seq<Suggestion>): (r: Json)
    ensures r.Array? && |r.items| == |ss|
  {
    Array(seq(|ss|, i requires 0 <= i < |ss| => SuggestionToJson(ss[i])))
  }

  // ------------------------------------------------------ analysis

  datatype Analysis = Analysis(
    priorityAnalysis: string,
    bottlenecks: string,
    recommendations: string,
    productivityInsights: string)

  const Bottlenecks :=
    "Consider reviewing task priorities and deadlines to identify potential bottlenecks."
  const Recommendations :=
    "Focus on completing high-priority tasks first and ensure proper task distribution among team members."
  const ProductivityInsights :=
    "Monitor task completion rates and adjust priorities based on project requirements."

  function AnalysisToJson(a: Analysis): Json {
    Object(map["priorityAnalysis" := Str(a.priorityAnalysis),
               "bottlenecks" := Str(a.bottlenecks),
               "recommendations" := Str(a.recommendations),
               "productivityInsights" := Str(a.productivityInsights)])
  }

  /** No task in the list is null or undefined, so reading its fields does not throw. */
  predicate AllReadable(tasks: seq<Json>) {
    forall i :: 0 <= i < |tasks| ==> !Nullish(tasks[i])
  }

  /** Every task can be counted: reading `task.priority` does not throw, and the
      priority converts to a property key. */
  predicate AllCountable(tasks: seq<Json>) {
    forall i :: 0 <= i < |tasks| ==> !Nullish(tasks[i]) && Printable(Prop(tasks[i], "priority"))
  }

  /** The property key `acc[task.priority]` updates. */
  function PriorityKey(task: Json): string {
    ToJsString(Prop(task, "priority"))
  }

  /** How many tasks of the list file under `key`. */
  function KeyCount(tasks: seq<Json>, key: string): (r: nat)
    ensures r <= |tasks|
  {
    if tasks == [] then 0
    else KeyCount(tasks[..|tasks| - 1], key) + (if PriorityKey(tasks[|tasks| - 1]) == key then 1 else 0)
  }

  function LabelCount(tasks: seq<Json>, l: Label): nat {
    KeyCount(tasks, LabelText(l))
  }

  /** `acc[key] || 0` on the accumulator, whose entries are all at least 1. */
  function Lookup(acc: map<string, nat>, key: string): nat {
    if key in acc then acc[key] else 0
  }

  /** The `priorityAnalysis` line: it opens with the total. */
  function SummaryText(total: nat, most: nat, important: nat, least: nat): (r: string)
    ensures "Total tasks: " + NatToString(total) + ". " <= r
  {
    var head := "Total tasks: " + NatToString(total) + ". ";
    var rest := "Priority distribution: Most Important (" + NatToString(most) + "), Important ("
      + NatToString(important) + "), Least Important (" + NatToString(least) + ")";
    assert (head + rest)[..|head|] == head;
    head + rest
  }

  /** The fallback analysis: it throws a TypeError when some entry is null or
      undefined (reading `task.priority`) or has a priority that cannot become a
      property key, and otherwise reports the total, the three label counts and
      three fixed pieces of advice. */
  function AnalysisFallback(tasks: seq<Json>): (r: Completion<Analysis>)
    ensures r.Threw? <==> !AllCountable(tasks)
    ensures r.Normal? ==> (r.value.bottlenecks == Bottlenecks
      && r.value.recommendations == Recommendations
      && r.value.productivityInsights == ProductivityInsights)
  {
    if !AllCountable(tasks) then Threw
    else Normal(Analysis(
      SummaryText(|tasks|, LabelCount(tasks, MostImportant), LabelCount(tasks, Important),
                  LabelCount(tasks, LeastImportant)),
      Bottlenecks, Recommendations, ProductivityInsights))
  }

  /** The `reduce` that builds `priorityCounts`: a dictionary accumulator with one
      entry per priority key met. */
  method CountPriorities(tasks: seq<Json>) returns (r: Completion<map<string, nat>>)
    ensures r.Threw? <==> !AllCountable(tasks)
    ensures r.Normal? ==> forall key :: Lookup(r.value, key) == KeyCount(tasks, key)
  {
    var acc: map<string, nat> := map[];
    for i := 0 to |tasks|
      invariant AllCountable(tasks[..i])
      invariant forall key :: Lookup(acc, key) == KeyCount(tasks[..i], key)
    {
      assert tasks[..i + 1][..i] == tasks[..i];
      match GetProp(tasks[i], "priority")
      case Threw =>
        return Threw;
      case Normal(p) =>
        if !Printable(p) {
          return Threw;
        }
        var key := ToJsString(p);
        acc := acc[key := Lookup(acc, key) + 1];
    }
    assert tasks[..|tasks|] == tasks;
    return Normal(acc);
  }

  /** The fallback as the source computes it: count first, then fill the template. */
  method ComputeAnalysisFallback(tasks: seq<Json>) returns (r: Completion<Analysis>)
    ensures r == AnalysisFallback(tasks)
  {
    var counts := CountPriorities(tasks);
    if counts.Threw? {
      return Threw;
    }
    var acc := counts.value;
    var summary := SummaryText(|tasks|, Lookup(acc, "Most Important"), Lookup(acc, "Important"),
                               Lookup(acc, "Least Important"));
    return Normal(Analysis(summary, Bottlenecks, Recommendations, ProductivityInsights));
  }

  /** Each task adds to at most one label, so the label counts never exceed the
      total; equality holds exactly when every priority is one of the labels. */
  lemma {:induction false} LabelCountsBounded(tasks: seq<Json>)
    ensures LabelCount(tasks, MostImportant) + LabelCount(tasks, Important)
      + LabelCount(tasks, LeastImportant) <= |tasks|
    ensures LabelCount(tasks, MostImportant) + LabelCount(tasks, Important)
      + LabelCount(tasks, LeastImportant) == |tasks|
      <==> forall i :: 0 <= i < |tasks| ==> IsLabelText(PriorityKey(tasks[i]))
  {
    if tasks != [] {
      var init := tasks[..|tasks| - 1];
      LabelCountsBounded(init);
      LabelStep(init, tasks[|tasks| - 1]);
      assert tasks == init + [tasks[|tasks| - 1]];
      assert forall i :: 0 <= i < |init| ==> init[i] == tasks[i];
    }
  }

  /** One more task adds one to the sum of the label counts when its priority is a
      label, and nothing otherwise. */
  lemma LabelStep(tasks: seq<Json>, task: Json)
    ensures var ts := tasks + [task];
      LabelCount(ts, MostImportant) + LabelCount(ts, Important) + LabelCount(ts, LeastImportant)
      == LabelCount(tasks, MostImportant) + LabelCount(tasks, Important)
        + LabelCount(tasks, LeastImportant) + (if IsLabelText(PriorityKey(task)) then 1 else 0)
  {
    assert (tasks + [task])[..|tasks|] == tasks;
  }

  /** A task with no priority (or any text outside the three labels) counts toward
      the total and toward no label. */
  lemma UnlabelledTaskCountsNowhere(tasks: seq<Json>, task: Json, l: Label)
    requires !IsLabelText(PriorityKey(task))
    ensures LabelCount(tasks + [task], l) == LabelCount(tasks, l)
    ensures |tasks + [task]| == |tasks| + 1
  {
    assert (tasks + [task])[..|tasks|] == tasks;
  }

  /** A missing priority reads as `undefined`, which names no label. */
  lemma MissingPriorityIsUnlabelled(task: map<string, Json>)
    requires "priority" !in task
    ensures !IsLabelText(PriorityKey(Object(task)))
  {
  }

  /** No tasks: the summary reports a total of zero and zero for every label. */
  lemma AnalysisOfNoTasks()
    ensures AnalysisFallback([]) == Normal(Analysis(SummaryText(0, 0, 0, 0),
      Bottlenecks, Recommendations, ProductivityInsights))
    ensures SummaryText(0, 0, 0, 0)[..14] == "Total tasks: 0"
  {
    assert NatToString(0) == "0";
  }

  /** Two "Important" tasks and one "Most Important" task. */
  lemma AnalysisOfThreeTasks()
    ensures
      var a := Object(map["title" := Str("A"), "priority" := Str("Important")]);
      var b := Object(map["title" := Str("B"), "priority" := Str("Important")]);
      var c := Object(map["title" := Str("C"), "priority" := Str("Most Important")]);
      AnalysisFallback([a, b, c]) == Normal(Analysis(SummaryText(3, 1, 2, 0),
        Bottlenecks, Recommendations, ProductivityInsights))
  {
    var a := Object(map["title" := Str("A"), "priority" := Str("Important")]);
    var b := Object(map["title" := Str("B"), "priority" := Str("Important")]);
    var c := Object(map["title" := Str("C"), "priority" := Str("Most Important")]);
    var ts := [a, b, c];
    assert PriorityKey(a) == "Important" && PriorityKey(b) == "Important";
    assert PriorityKey(c) == "Most Important";
    assert "Important" != "Most Important" && "Important" != "Least Important";
    assert "Most Important" != "Least Important";
    assert ts[..2] == [a, b] && [a, b][..1] == [a] && [a][..0] == [];
    assert KeyCount([a], "Important") == 1 && KeyCount([a, b], "Important") == 2;
    assert KeyCount(ts, "Important") == 2;
    assert KeyCount([a], "Most Important") == 0;
    assert KeyCount([a, b], "Most Important") == KeyCount([a], "Most Important");
    assert KeyCount(ts, "Most Important") == 1;
    assert KeyCount([a], "Least Important") == 0;
    assert KeyCount([a, b], "Least Important") == KeyCount([a], "Least Important");
    assert KeyCount(ts, "Least Important") == 0;
  }
}

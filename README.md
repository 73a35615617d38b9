# Task dashboard with AI assist — a Dafny model

The repository is a task and project dashboard whose "AI assist" layer asks a
hosted language model for task descriptions, priorities, task suggestions and a
performance analysis. This project models the deterministic part of that layer
and of the dashboard pages:

- **Fallback rules** (`Fallback`). These answer when the model is missing or fails:
  - the keyword priority classifier;
  - the description template;
  - the five stock suggestions;
  - the per-priority counting analysis.

  The server copy and the browser copy of these rules are one module here.
- **The server gateway** (`Gateway.GeminiService`). It is a class whose `available`
  flag is fixed by its constructor. Its four operations pick the model's answer or a
  fallback. The model call is not modelled: what it produced is an input (`Reply`).
- **The `/ai` routes** (`Routes`). Each handler is a function from the request body
  to a status (200, 400 or 500) and a JSON body.
- **The browser service** (`Client`). It returns one field of the response, or the
  fallback when the request fails. `RoundTrip` composes browser, route and gateway,
  and proves that the user sees the same fallback wherever it was computed.
- **The Tasks and Projects pages** (`Dashboard`, `TaskBoard`, `ProjectBoard`):
  - status buckets built with `filter`;
  - rounded percentage rings;
  - statistics tiles;
  - colour maps and card tags.
- **The Add Task dialog** (`AddTask`):
  - the `formData` record, rebuilt by spread-and-override in each handler;
  - the lookups that feed the AI widgets;
  - the submit handler with its `loading` flag. `TaskDialog` is the component state.

JavaScript values are the `Js.Json` datatype. It includes `undefined`, and numbers
are integers. `Js` also defines the coercions the code relies on:
- truthiness;
- `String(v)`, and when it throws: for an object with its own `toString` key, as JSON can deliver, and for an array holding one;
- property reads that throw on `null`/`undefined` (a `Completion`);
- `===`;
- `toLowerCase`;
- `includes`;
- `trim`.

## Model

| member | source | states |
|---|---|---|
| Js.GetProp | backend/routes/ai.js:9 | reading a property throws exactly when the value is `null` or `undefined`; an object yields its field, anything else `undefined` |
| Js.Printable | backend/services/geminiService.js:59 | `String(v)` returns exactly for a value that is not an object with its own `toString` key and not an array holding such a value; otherwise the conversion throws a TypeError |
| Js.ToJsString | backend/services/geminiService.js:184 | `String(v)` of a printable value: a string prints as itself, and a non-negative number as a decimal numeral that reads back as that number |
| Js.Lower | backend/services/geminiService.js:59 | `toLowerCase()` keeps the length and lower-cases each ASCII letter in place |
| Js.Includes | backend/services/geminiService.js:61 | `text.includes(word)` holds for the empty word and never for a word longer than the text |
| Js.IncludesIffOccurs | backend/services/geminiService.js:61 | `text.includes(word)` holds iff `word` occurs at some position of `text` |
| Js.Trim | backend/services/geminiService.js:45 | `trim()` never lengthens the text and leaves no whitespace at either end |
| Js.TrimSpec | backend/services/geminiService.js:45 | `trim()` keeps a contiguous slice and removes only whitespace around it |
| Js.NatToStringInjective | backend/services/geminiService.js:189 | distinct counts print as distinct numerals in the summary |
| Fallback.MentionsAnyIff | backend/services/geminiService.js:61-63 | `keywords.some(k => text.includes(k))` holds iff some keyword occurs somewhere in the text |
| Fallback.ClassifyText | backend/services/geminiService.js:56-67 | the label is Most Important iff an urgency keyword occurs in the lower-cased text. It is Important iff none does and an importance keyword does, and Least Important iff neither occurs, so urgency wins |
| Fallback.Classify | backend/services/geminiService.js:59 | `title + ' ' + description` throws iff the title or the description cannot be converted to a string; otherwise the label is the keyword rule on that text |
| Fallback.ClassifyMonotone | backend/services/geminiService.js:59-67 | adding text around title and description never lowers the label |
| Fallback.ClassifyIgnoresCase | backend/services/geminiService.js:59 | lower-casing the text first does not change the label |
| Fallback.ClassifyEmpty | backend/services/geminiService.js:65-67 | an empty title and description give Least Important |
| Fallback.ClassifyUrgentMeeting | backend/services/geminiService.js:61-64 | "urgent" with "team meeting" is Most Important although "meeting" is an importance keyword |
| Fallback.ClassifyUpdated | backend/services/geminiService.js:57-63 | "Updated" matches `update` after lower-casing, so it ranks at least Important |
| Fallback.DescriptionText | backend/services/geminiService.js:28 | the template starts with "Complete the task: <title>. " and ends with the fixed closing sentence |
| Fallback.DescriptionFallback | backend/services/geminiService.js:49 | evaluating the template throws iff the title or the context cannot be converted to a string (an unconvertible context is always truthy, so it is interpolated); otherwise it is the template text |
| Fallback.DescriptionRoundTrip | backend/services/geminiService.js:28 | the context clause can be read back out of the description exactly when the context is truthy |
| Fallback.DescriptionSeparatesContexts | backend/services/geminiService.js:49 | two different non-empty contexts give different descriptions |
| Fallback.FallbackSuggestions | backend/services/geminiService.js:99-125 | five suggestions; every label occurs among them; every title and description is non-empty |
| Fallback.AnalysisFallback | backend/services/geminiService.js:182-193 | throws iff some task is `null`/`undefined` or has a priority that cannot become a property key; otherwise the three advice strings are the fixed constants whatever the input |
| Fallback.CountPriorities | backend/services/geminiService.js:183-186 | the `reduce` throws iff some task is `null`/`undefined` or has a priority that cannot become a property key; otherwise each key maps to the number of tasks whose `String(task.priority)` is that key |
| Fallback.KeyCount | backend/services/geminiService.js:183-186 | no key is counted more often than there are tasks |
| Fallback.SummaryText | backend/services/geminiService.js:189 | the `priorityAnalysis` line opens with "Total tasks: <total>. " |
| Fallback.ComputeAnalysisFallback | backend/services/geminiService.js:182-193 | counting with the accumulator and filling the template gives the specified fallback analysis |
| Fallback.LabelCountsBounded | backend/services/geminiService.js:182-189 | the three label counts add up to at most the total, with equality iff every task's priority is one of the labels |
| Fallback.UnlabelledTaskCountsNowhere | backend/services/geminiService.js:183-189 | a task with a priority outside the labels adds to the total and to no label |
| Fallback.MissingPriorityIsUnlabelled | backend/services/geminiService.js:184 | a task without a priority is keyed "undefined", which is no label |
| Fallback.AnalysisOfNoTasks | backend/services/geminiService.js:188-189 | no tasks: the summary begins "Total tasks: 0" and every count is zero |
| Fallback.AnalysisOfThreeTasks | backend/services/geminiService.js:182-189 | two Important and one Most Important task give total 3 and counts 1, 2, 0 |
| Gateway.GeminiService.constructor | backend/services/geminiService.js:11-23 | the service is available iff the library loaded, a non-empty key is set and building the client did not throw |
| Gateway.GeminiService.GenerateTaskDescription | backend/services/geminiService.js:25-51 | throws iff the title or the context cannot be converted to a string, whatever the model does (the prompt throws, then the template in the error handler); otherwise the template when unavailable and when the call fails, the trimmed answer otherwise |
| Gateway.GeminiService.SuggestPriority | backend/services/geminiService.js:53-94 | throws iff the model is unavailable and the title or description cannot be converted to a string; otherwise, when unavailable, the classifier's label (always one of three); "Important" when the call fails or the prompt cannot be built; the trimmed answer otherwise |
| Gateway.GeminiService.GenerateTaskSuggestions | backend/services/geminiService.js:96-177 | the five stock suggestions when unavailable, when the call fails and when the context or role cannot be converted to a string for the prompt; the parsed answer otherwise |
| Gateway.GeminiService.AnalysisOutcome | backend/services/geminiService.js:179-235 | throws iff a task is `null`/`undefined`, or a priority cannot become a property key and the counting fallback runs; otherwise the counting fallback when unavailable or failing, the parsed answer otherwise |
| Gateway.GeminiService.AnalyzeTaskPerformance | backend/services/geminiService.js:179-235 | computes the specified analysis outcome |
| Gateway.PriorityFallbackAsymmetry | backend/services/geminiService.js:53-94 | on "urgent fix"/"asap please" an unavailable model says Most Important while a failed call says Important |
| Gateway.PriorityAnswerUnchecked | backend/services/geminiService.js:86-88 | the model's answer is not checked: " High " comes back as "High", which is no label |
| Routes.GenerateDescription | backend/routes/ai.js:7-21 | 500 iff the body is `null`/`undefined`, or the title is truthy and the title or context cannot be converted to a string; 400 "Title is required" iff the title is falsy; otherwise 200 with the description under `description`; messages are fixed |
| Routes.SuggestPriority | backend/routes/ai.js:24-38 | 400 iff title or description is falsy; 500 iff the body is missing, or both are truthy, the model is unavailable and one of them cannot be converted to a string; otherwise 200 with the gateway's priority under `priority` |
| Routes.TaskSuggestions | backend/routes/ai.js:41-51 | never 400; 500 iff the body is missing; otherwise 200 with the suggestions for the two optional fields (defaulted to '') under `suggestions` |
| Routes.AnalyzePerformance | backend/routes/ai.js:54-68 | 400 iff `tasks` is missing or not an array; 500 iff the body is missing, a task is `null`/`undefined`, or a priority cannot become a key while the fallback runs; otherwise 200 with the analysis under `analysis` |
| Routes.RejectedRequestsIgnoreModel | backend/routes/ai.js:11-13 | a request turned away with 400 gets the same response whatever the model would say, so the model is not consulted |
| Routes.MissingFieldsRejected | backend/routes/ai.js:28-30 | `{}` is rejected by generate-description, a title alone by suggest-priority |
| Routes.PriorityRouteAnswersLabel | backend/routes/ai.js:32-33 | without the model every 200 from suggest-priority carries one of the three labels |
| Client.ResponseField | frontend/src/services/aiService.js:21 | reading `response.data.<key>` fails iff the request was rejected or the body is `null`/`undefined` |
| Client.GenerateTaskDescription | frontend/src/services/aiService.js:15-27 | the response's `description` when it can be read; else the same template as the server, which throws iff the title or context cannot be converted to a string |
| Client.SuggestPriority | frontend/src/services/aiService.js:29-52 | the response's `priority`; else the same classifier as the server, which throws iff the title or description cannot be converted to a string and otherwise gives a label |
| Client.GetTaskSuggestions | frontend/src/services/aiService.js:54-92 | the response's `suggestions`, else the same five stock suggestions |
| Client.AnalysisOutcome | frontend/src/services/aiService.js:94-116 | the response's `analysis`, else the same counting fallback, which throws iff a task is `null`/`undefined` or has a priority that cannot become a property key |
| Client.AnalyzeTaskPerformance | frontend/src/services/aiService.js:94-116 | computes the specified outcome |
| RoundTrip.Deliver | frontend/src/services/aiService.js:17-21 | the browser receives the body iff the server was reached and the status is 2xx |
| RoundTrip.DescriptionWithoutModel | frontend/src/services/aiService.js:15-27 | without a model answer the user sees the template, whether the server or the browser produced it |
| RoundTrip.PriorityAlwaysText | frontend/src/services/aiService.js:29-52 | for typed text the user always gets a label or the model's trimmed text, never an error; without the model exactly the classifier's label |
| RoundTrip.SuggestionsWithoutModel | frontend/src/services/aiService.js:54-92 | without a model answer the user gets the five stock suggestions |
| RoundTrip.AnalysisThrowsOnlyOnBadTasks | frontend/src/services/aiService.js:94-116 | the browser's analysis call throws iff a task is `null`/`undefined`, or a priority cannot become a property key and the model's answer did not reach the browser; without a model answer it yields the counting fallback |
| Dashboard.Filter | frontend/src/layouts/tasks/Tasks.jsx:67-69 | `filter` keeps at most all elements, and only elements satisfying the predicate |
| Dashboard.FilterIsSubsequence | frontend/src/layouts/tasks/Tasks.jsx:67-69 | a bucket is an order-preserving subsequence: the elements at increasing positions, a position kept iff its element satisfies the predicate |
| Dashboard.FilterMembers | frontend/src/layouts/tasks/Tasks.jsx:67-69 | every kept element comes from the input, and every input element satisfying the predicate is kept |
| Dashboard.FilterDisjointUnion | frontend/src/layouts/projects/Projects.jsx:63-66 | two exclusive predicates keep as many elements together as their disjunction |
| Dashboard.FilterKeepsAll | frontend/src/layouts/tasks/Tasks.jsx:67-69 | nothing is dropped iff every element satisfies the predicate |
| Dashboard.Percent | frontend/src/layouts/tasks/Tasks.jsx:207-220 | 0 for no items; otherwise the integer nearest to 100·count/total, halves rounded up; at most 100 when count ≤ total |
| Dashboard.ThreePercents | frontend/src/layouts/tasks/Tasks.jsx:207-220 | three rings over disjoint buckets show at most 101 in total |
| Dashboard.FourPercents | frontend/src/layouts/projects/Projects.jsx:207-228 | four rings over disjoint buckets show at most 102 in total |
| Dashboard.PriorityColor | frontend/src/layouts/tasks/Tasks.jsx:73-84 | red, yellow and green exactly for the three labels; gray for anything else |
| Dashboard.PriorityColorIdentifiesLabel | frontend/src/layouts/projects/Projects.jsx:69-80 | no label is gray and different labels get different colours |
| TaskBoard.BucketOfStatus | frontend/src/layouts/tasks/Tasks.jsx:67-69 | pending iff the status is falsy or 'pending'; in progress and completed are exact matches; no task is in two buckets |
| TaskBoard.PendingTasks | frontend/src/layouts/tasks/Tasks.jsx:67 | a task is in the pending bucket iff it is in the list and its status is falsy or 'pending' |
| TaskBoard.InProgressTasks | frontend/src/layouts/tasks/Tasks.jsx:68 | a task is in the in-progress bucket iff it is in the list and its status is 'in-progress' |
| TaskBoard.CompletedTasks | frontend/src/layouts/tasks/Tasks.jsx:69 | a task is in the completed bucket iff it is in the list and its status is 'completed' |
| TaskBoard.BucketSizes | frontend/src/layouts/tasks/Tasks.jsx:67-69 | the bucket sizes add up to at most the number of tasks, with equality iff every task is in a bucket |
| TaskBoard.UnknownStatusShownNowhere | frontend/src/layouts/tasks/Tasks.jsx:67-69 | a task with any other status appears in no bucket |
| TaskBoard.Rings | frontend/src/layouts/tasks/Tasks.jsx:207-220 | all labels are 0 without tasks and each lies in 0..100 |
| TaskBoard.RingsAddUpToAtMost101 | frontend/src/layouts/tasks/Tasks.jsx:207-220 | the three labels add up to at most 101 |
| TaskBoard.StatusColor | frontend/src/layouts/tasks/Tasks.jsx:86-95 | green iff 'completed', blue iff 'in-progress', red otherwise (`getStatusColor` is defined on the page but no card calls it; cards use `getPriorityColor`) |
| TaskBoard.StatusColorMatchesBucket | frontend/src/layouts/tasks/Tasks.jsx:86-95 | the status colour is green iff the task is completed, blue iff in progress, and red for pending tasks (a property of the unused `getStatusColor`) |
| ProjectBoard.BucketsExclusive | frontend/src/layouts/projects/Projects.jsx:63-66 | no project is in two of the four buckets |
| ProjectBoard.OnHoldProjects | frontend/src/layouts/projects/Projects.jsx:63 | a project is on hold iff it is in the list and its status is falsy or 'On Hold' |
| ProjectBoard.InProgressProjects | frontend/src/layouts/projects/Projects.jsx:64 | a project is in progress iff it is in the list and its status is 'In Progress' |
| ProjectBoard.TestingProjects | frontend/src/layouts/projects/Projects.jsx:65 | a project is in testing iff it is in the list and its status is 'Testing' |
| ProjectBoard.CompletedProjects | frontend/src/layouts/projects/Projects.jsx:66 | a project is completed iff it is in the list and its status is 'Completed' |
| ProjectBoard.BucketSizes | frontend/src/layouts/projects/Projects.jsx:62-66 | the four bucket sizes add up to at most `totalProjects`, with equality iff every project is in a bucket |
| ProjectBoard.StatisticsTiles | frontend/src/layouts/projects/Projects.jsx:150-173 | the Pending/Testing tile counts the projects on hold or in testing; completed, in progress and that tile add up to at most the total |
| ProjectBoard.Rings | frontend/src/layouts/projects/Projects.jsx:207-228 | all labels are 0 without projects and each lies in 0..100 |
| ProjectBoard.RingsAddUpToAtMost102 | frontend/src/layouts/projects/Projects.jsx:207-228 | the four labels add up to at most 102 |
| ProjectBoard.StatusColor | frontend/src/layouts/projects/Projects.jsx:82-93 | green iff Completed, blue iff In Progress, orange iff Testing, red otherwise |
| ProjectBoard.CardTag | frontend/src/layouts/projects/Projects.jsx:103-111 | the priority in the to-do section, else the status with 'On Hold' for a falsy one; the colour always agrees with the words on the tag |
| ProjectBoard.OnHoldCardsTaggedOnHold | frontend/src/layouts/projects/Projects.jsx:108-110 | `renderProjectCard` outside the to-do section tags a project with a falsy status 'On Hold' in red; the page never renders such a card outside the to-do section, so there the default is dead code |
| AddTask.EmptyForm | frontend/src/layouts/tasks/modals/AddTask.jsx:32-39 | exactly the six fields, all '' except priority 'Most Important' |
| AddTask.Changed | frontend/src/layouts/tasks/modals/AddTask.jsx:40-42 | the named field gets the value and every other field is unchanged |
| AddTask.WithPriority | frontend/src/layouts/tasks/modals/AddTask.jsx:43-45 | only `priority` changes; a complete form stays complete |
| AddTask.WithDescription | frontend/src/layouts/tasks/modals/AddTask.jsx:57-59 | only `description` changes; a complete form stays complete |
| AddTask.WithSuggestion | frontend/src/layouts/tasks/modals/AddTask.jsx:48-55 | throws iff the suggestion is `null`/`undefined`; otherwise title, description and priority come from the suggestion and assignTo, project and startDate are unchanged |
| AddTask.StockSuggestionFillsForm | frontend/src/layouts/tasks/modals/AddTask.jsx:48-55 | choosing a stock suggestion fills in its title and a label that is not shown gray |
| AddTask.TagColors | frontend/src/layouts/tasks/modals/AddTask.jsx:201-227 | each priority tag is lit in its own colour iff it names the form's priority, gray otherwise |
| AddTask.OneTagLit | frontend/src/layouts/tasks/modals/AddTask.jsx:199-228 | at most one tag is lit, exactly one iff the priority is a label, and a chosen label lights its tag |
| AddTask.FirstWithId | frontend/src/layouts/tasks/modals/AddTask.jsx:145 | the first document whose `_id` is `===` the id, or none when no document matches |
| AddTask.MatchedField | frontend/src/layouts/tasks/modals/AddTask.jsx:145-146 | the field of the first match, or '' when there is no match or the field is falsy |
| AddTask.ProjectContext | frontend/src/layouts/tasks/modals/AddTask.jsx:145 | the context is '' or the truthy title of a project whose `_id` is `===` the selected project |
| AddTask.EmployeeRole | frontend/src/layouts/tasks/modals/AddTask.jsx:146 | the role is '' or the truthy position of an employee whose `_id` is `===` the selected assignee |
| AddTask.SelectionDrivesContext | frontend/src/layouts/tasks/modals/AddTask.jsx:163 | with distinct ids, selecting a project makes its title the context and selecting an employee makes their position the role |
| AddTask.SubmitAsWritten | frontend/src/layouts/tasks/modals/AddTask.jsx:94-128 | as written, the handler leaves `loading` on iff an exception escapes it. That happens iff there is no response, a `null` response body, or a `null` success body. When nothing escapes, the result agrees with the corrected handler |
| AddTask.SubmitAsWrittenHangsWithoutResponse | frontend/src/layouts/tasks/modals/AddTask.jsx:117-127 | a rejection without a response leaves `loading` true and shows no toast, while an empty success body (the string "") does not |
| AddTask.Submit | frontend/src/layouts/tasks/modals/AddTask.jsx:94-128 | corrected: `loading` always ends false; the form is reset only after a success; exactly one toast, a success toast iff the dialog closes |
| AddTask.TaskDialog.constructor | frontend/src/layouts/tasks/modals/AddTask.jsx:28-39 | the dialog starts from the empty form, not loading |
| AddTask.TaskDialog.HandleChange | frontend/src/layouts/tasks/modals/AddTask.jsx:40-42 | the form becomes the changed record; nothing else changes |
| AddTask.TaskDialog.HandleTagClick | frontend/src/layouts/tasks/modals/AddTask.jsx:43-45 | only the priority changes |
| AddTask.TaskDialog.HandleAISuggestion | frontend/src/layouts/tasks/modals/AddTask.jsx:48-55 | the form takes the suggestion, or stays as it was when the handler throws |
| AddTask.TaskDialog.HandleAIDescription | frontend/src/layouts/tasks/modals/AddTask.jsx:57-59 | only the description changes |
| AddTask.TaskDialog.HandleAIPriority | frontend/src/layouts/tasks/modals/AddTask.jsx:61-63 | only the priority changes |
| AddTask.TaskDialog.BeginSubmit | frontend/src/layouts/tasks/modals/AddTask.jsx:94-96 | `loading` is on while the request is pending; the form is untouched |
| AddTask.TaskDialog.FinishSubmit | frontend/src/layouts/tasks/modals/AddTask.jsx:97-127 | the state after the request is the corrected submit's: `loading` off, one toast, reset only after success |

## Left out

- The model calls themselves are not modelled: the prompt text, the `generateContent` call and `JSON.parse` of its output. What the call produced is an input (`Gateway.Reply`).
- Library loading and the API-key lookup are constructor parameters.
- axios, the Express router, the auth middleware, `localStorage` and console logging are not modelled. An HTTP exchange is an input (`Client.Http`, `AddTask.PostOutcome`), and `RoundTrip.Deliver` says how a route's response reaches the browser.
- Rendering, Chakra components, toasts beyond their title and kind, and the AI widget components are not modelled. Neither are `formatDate`, the fixed 40% ring, the fetching effects and the read-only task dialog.
- Js.Json: numbers are integers. Floating point is not modelled. Neither is how `String()` prints numbers that are not small integers: non-integral numbers, integers of 10^21 and more (exponent form, "1e+21") and integers above 2^53, which lose precision when parsed.
- Js.Lower: only ASCII letters are lower-cased.
- JSON serialization between browser and server is the identity on `Json` values.
- Fallback.CountPriorities: a priority that names a built-in property of `Object.prototype` (such as "constructor") starts from the inherited value, not from 0. Such keys never equal a label, so the three label counts are unaffected; the count under that key is not modelled.
- Dashboard.Percent: the label is computed exactly on integers. The unrounded ring value and binary rounding of `(count / total) * 100` near a half are not modelled.
- TaskBoard, ProjectBoard, AddTask.FirstWithId: tasks, projects and employees are JSON objects as the API returns them. A `null` entry, which would make `filter` throw on the boards, or make `p._id` throw inside the `find` lookups of the task dialog during render (AddTask.ProjectContext, AddTask.EmployeeRole, AddTask.MatchedField), is not modelled.
- AddTask.TaskDialog: each handler sees the latest `formData`. React's batching of state updates, and handlers closing over an older render, are not modelled.
- AddTask.TaskDialog.FinishSubmit: it follows the corrected handler (see Findings). `AddTask.SubmitAsWritten` models the code as written.
- Client: the browser's fallbacks throw where the server's do: the analysis on a `null` or `undefined` task or an unconvertible priority, the template and the classifier on an unconvertible value. The failed-request paths can therefore still end in an error; the dialog's widgets pass strings, which always convert.

## Findings

| source | as written | input that shows it | evidently intended | confidence | as-written member | corrected member |
|---|---|---|---|---|---|---|
| frontend/src/layouts/tasks/modals/AddTask.jsx:118 | the `catch` reads `error.response.data.message`. When the request got no response (server unreachable), this throws inside the `catch`, so `setLoading(false)` never runs | a POST rejected with `error.response === undefined` | `loading` returns to false and an error toast is shown after every submit | not executed | AddTask.SubmitAsWrittenHangsWithoutResponse | AddTask.Submit |

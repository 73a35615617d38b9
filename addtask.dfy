/** The Add Task dialog: the `formData` record and the handlers that rebuild it by
    spreading the old record and overriding a few fields, the lookups that feed the
    AI widgets the selected project's title and employee's position, and the submit
    handler with its `loading` flag. */
module AddTask {
  import opened Js
  import opened Fallback
  import opened Dashboard

  /** The `formData` record. */
  type Form = map<string, Json>

  /** A project or employee document as the API returns it. */
  type Doc = map<string, Json>

  const FormKeys: set<string> := {"title", "description", "assignTo", "project", "startDate", "priority"}

  /** The record the dialog opens with and returns to after a successful submit:
      every field empty except the priority, which starts at the highest label. */
  function EmptyForm(): (f: Form)
    ensures f.Keys == FormKeys
    ensures forall k :: k in f && k != "priority" ==> f[k] == Str("")
    ensures f["priority"] == Str(LabelText(MostImportant))
  {
    map["title" := Str(""), "description" := Str(""), "assignTo" := Str(""),
        "project" := Str(""), "startDate" := Str(""), "priority" := Str("Most Important")]
  }

  /** `b` is `a` except possibly at the keys in `changed`. */
  ghost predicate AgreeOutside(a: Form, b: Form, changed: set<string>) {
    forall k :: k !in changed ==> (k in a <==> k in b) && (k in a ==> a[k] == b[k])
  }

  // ---------------------------------------------------------------- handlers

  /** `handleChange`: `{ ...formData, [name]: value }` */
  function Changed(form: Form, name: string, value: Json): (r: Form)
    ensures name in r && r[name] == value
    ensures AgreeOutside(form, r, {name})
    ensures r.Keys == form.Keys + {name}
  {
    form[name := value]
  }

  /** `handleTagClick` and `handleAIPriority`: `{ ...formData, priority }` */
  function WithPriority(form: Form, priority: Json): (r: Form)
    ensures "priority" in r && r["priority"] == priority
    ensures AgreeOutside(form, r, {"priority"})
    ensures form.Keys == FormKeys ==> r.Keys == FormKeys
  {
    Changed(form, "priority", priority)
  }

  /** `handleAIDescription`: `{ ...formData, description }` */
  function WithDescription(form: Form, description: Json): (r: Form)
    ensures "description" in r && r["description"] == description
    ensures AgreeOutside(form, r, {"description"})
    ensures form.Keys == FormKeys ==> r.Keys == FormKeys
  {
    Changed(form, "description", description)
  }

  /** `handleAISuggestion`: the suggestion's title, description and priority replace
      the form's; reading them from a null or undefined suggestion throws. */
  function WithSuggestion(form: Form, suggestion: Json): (r: Completion<Form>)
    ensures r.Threw? <==> Nullish(suggestion)
    ensures r.Normal? ==> AgreeOutside(form, r.value, {"title", "description", "priority"})
    ensures r.Normal? ==> forall k :: k in {"title", "description", "priority"} ==>
      k in r.value && r.value[k] == Prop(suggestion, k)
    ensures r.Normal? && form.Keys == FormKeys ==> r.value.Keys == FormKeys
  {
    if Nullish(suggestion) then Threw
    else
      Normal(form["title" := Prop(suggestion, "title")]
                 ["description" := Prop(suggestion, "description")]
                 ["priority" := Prop(suggestion, "priority")])
  }

  /** Taking a stock suggestion fills the three fields with its text and label. */
  lemma StockSuggestionFillsForm(form: Form, i: nat)
    requires i < |StockSuggestions|
    ensures var r := WithSuggestion(form, SuggestionToJson(StockSuggestions[i]));
      r.Normal? && r.value["title"] == Str(StockSuggestions[i].title)
      && r.value["priority"] == Str(LabelText(StockSuggestions[i].priority))
      && PriorityColor(r.value["priority"]) != Gray
  {
  }

  // ---------------------------------------------------------------- priority tags

  /** The colour schemes of the three clickable priority tags, in the order shown:
      each is lit in its own colour when it names the form's priority, gray otherwise. */
  function TagColors(form: Form): (cs: seq<Color>)
    ensures |cs| == 3
    ensures cs[0] == Red <==> Field(form, "priority") == Str("Most Important")
    ensures cs[1] == Yellow <==> Field(form, "priority") == Str("Important")
    ensures cs[2] == Green <==> Field(form, "priority") == Str("Least Important")
    ensures cs[0] in {Red, Gray} && cs[1] in {Yellow, Gray} && cs[2] in {Green, Gray}
  {
    var priority := Field(form, "priority");
    [if StrictEq(priority, Str("Most Important")) then Red else Gray,
     if StrictEq(priority, Str("Important")) then Yellow else Gray,
     if StrictEq(priority, Str("Least Important")) then Green else Gray]
  }

  function LitCount(cs: seq<Color>): nat {
    if cs == [] then 0 else (if cs[0] == Gray then 0 else 1) + LitCount(cs[1..])
  }

  /** At most one tag is lit, and exactly one when the priority is one of the three
      labels; a label clicked or suggested lights its own tag. */
  lemma {:induction false} OneTagLit(form: Form, choice: Label)
    ensures LitCount(TagColors(form)) <= 1
    ensures var p := Field(form, "priority");
      LitCount(TagColors(form)) == 1 <==> p.Str? && IsLabelText(p.s)
    ensures PriorityColor(Str(LabelText(choice))) in TagColors(WithPriority(form, Str(LabelText(choice))))
  {
    var cs := TagColors(form);
    assert cs[1..][1..][1..] == [];
    assert LitCount(cs[1..][1..]) == (if cs[2] == Gray then 0 else 1);
    assert LitCount(cs) == (if cs[0] == Gray then 0 else 1) + (if cs[1] == Gray then 0 else 1)
      + (if cs[2] == Gray then 0 else 1);
  }

  // ---------------------------------------------------------------- lookups

  /** `docs.findIndex(d => d._id === id)`, as an option. Documents are records, so
      the `null` entry that would make `d._id` throw cannot occur here. */
  function FirstWithId(docs: seq<Doc>, id: Json): (r: Option<nat>)
    ensures r.Some? ==> r.value < |docs| && StrictEq(Field(docs[r.value], "_id"), id)
    ensures r.Some? ==> forall j :: 0 <= j < r.value ==> !StrictEq(Field(docs[j], "_id"), id)
    ensures r.None? ==> forall j :: 0 <= j < |docs| ==> !StrictEq(Field(docs[j], "_id"), id)
  {
    if docs == [] then None
    else if StrictEq(Field(docs[0], "_id"), id) then Some(0)
    else
      match FirstWithId(docs[1..], id)
      case None => None
      case Some(i) => Some(i + 1)
  }

  /** `docs.find(d => d._id === id)?.[key] || ''` */
  function MatchedField(docs: seq<Doc>, id: Json, key: string): (r: Json)
    ensures FirstWithId(docs, id).None? ==> r == Str("")
    ensures FirstWithId(docs, id).Some? ==>
      r == Or(Field(docs[FirstWithId(docs, id).value], key), Str(""))
    ensures r == Str("") || Truthy(r)
  {
    match FirstWithId(docs, id)
    case None => Str("")
    case Some(i) => Or(Field(docs[i], key), Str(""))
  }

  /** The project context handed to the suggestion and description widgets: '' or
      the truthy title of a project whose id is the one the form selects. */
  function ProjectContext(projects: seq<Doc>, form: Form): (r: Json)
    ensures r == Str("") || Truthy(r)
    ensures r != Str("") ==> exists i :: (0 <= i < |projects|
      && StrictEq(Field(projects[i], "_id"), Field(form, "project")) && r == Field(projects[i], "title"))
  {
    MatchedField(projects, Field(form, "project"), "title")
  }

  /** The employee role handed to the suggestion widget: '' or the truthy position
      of an employee whose id is the one the form selects. */
  function EmployeeRole(employees: seq<Doc>, form: Form): (r: Json)
    ensures r == Str("") || Truthy(r)
    ensures r != Str("") ==> exists i :: (0 <= i < |employees|
      && StrictEq(Field(employees[i], "_id"), Field(form, "assignTo")) && r == Field(employees[i], "position"))
  {
    MatchedField(employees, Field(form, "assignTo"), "position")
  }

  predicate UniqueIds(docs: seq<Doc>) {
    forall i, j :: 0 <= i < j < |docs| ==> !StrictEq(Field(docs[i], "_id"), Field(docs[j], "_id"))
  }

  /** Picking a project in the select makes its title the context, and picking an
      employee makes their position the role, when the ids are distinct. */
  lemma SelectionDrivesContext(projects: seq<Doc>, employees: seq<Doc>, form: Form, p: nat, e: nat)
    requires UniqueIds(projects) && UniqueIds(employees)
    requires p < |projects| && Field(projects[p], "_id").Str?
    requires e < |employees| && Field(employees[e], "_id").Str?
    ensures ProjectContext(projects, Changed(form, "project", Field(projects[p], "_id")))
      == Or(Field(projects[p], "title"), Str(""))
    ensures EmployeeRole(employees, Changed(form, "assignTo", Field(employees[e], "_id")))
      == Or(Field(employees[e], "position"), Str(""))
  {
  }

  // ---------------------------------------------------------------- submit

  /** How the POST of the form ended: a 2xx response with its body, or a rejection
      carrying `error.response` (`undefined` when the server was not reached). */
  datatype PostOutcome = Created(data: Json) | PostFailed(response: Json)

  /** A toast: its title and whether it is the success kind. */
  datatype Toast = Toast(title: Json, success: bool)

  /** The dialog's state once the handler is done: the form, the `loading` flag,
      the toast shown, whether `onClose` was called, and whether an exception
      escaped the handler. */
  datatype SubmitEnd = SubmitEnd(form: Form, loading: bool, toast: Option<Toast>,
                                 closed: bool, escaped: bool)

  /** `handleSubmit` as written: the `catch` reads `error.response.data.message`,
      which itself throws when there is no response (no connection) or its body is
      `null`, and also when the error is the TypeError of reading `message` from a
      `null` success body. Then `setLoading(false)` is never reached. An empty body
      arrives as the string "", whose `message` is `undefined`, and escapes nothing. */
  function SubmitAsWritten(form: Form, outcome: PostOutcome): (e: SubmitEnd)
    ensures e.loading <==> e.escaped
    ensures e.escaped <==>
      (outcome.Created? && Nullish(outcome.data))
      || (outcome.PostFailed? && (Nullish(outcome.response) || Nullish(Prop(outcome.response, "data"))))
    ensures !e.escaped ==> e == Submit(form, outcome)
  {
    match outcome
    case Created(data) =>
      (match GetProp(data, "message")
       case Normal(message) => SubmitEnd(EmptyForm(), false, Some(Toast(message, true)), true, false)
       // the TypeError has no `response`, so the catch throws again
       case Threw => SubmitEnd(EmptyForm(), true, None, false, true))
    case PostFailed(response) =>
      match GetProp(response, "data")
      case Threw => SubmitEnd(form, true, None, false, true)
      case Normal(data) =>
        match GetProp(data, "message")
        case Threw => SubmitEnd(form, true, None, false, true)
        case Normal(message) => SubmitEnd(form, false, Some(Toast(message, false)), false, false)
  }

  /** A refused connection leaves the spinner on for good. */
  lemma SubmitAsWrittenHangsWithoutResponse(form: Form)
    ensures SubmitAsWritten(form, PostFailed(Undefined)).loading
    ensures SubmitAsWritten(form, PostFailed(Undefined)).toast.None?
    ensures !SubmitAsWritten(form, Created(Str(""))).loading
  {
  }

  /** `handleSubmit` with the `catch` reading `error.response?.data?.message`: the
      submit always settles, the form is cleared and the dialog closed only after a
      success, and exactly one toast says how it went. */
  function Submit(form: Form, outcome: PostOutcome): (e: SubmitEnd)
    ensures !e.loading && !e.escaped
    ensures e.form == (if outcome.Created? then EmptyForm() else form)
    ensures e.closed <==> outcome.Created? && !Nullish(outcome.data)
    ensures e.toast.Some? && (e.toast.value.success <==> e.closed)
  {
    match outcome
    case Created(data) =>
      (match GetProp(data, "message")
       case Normal(message) => SubmitEnd(EmptyForm(), false, Some(Toast(message, true)), true, false)
       case Threw => SubmitEnd(EmptyForm(), false, Some(Toast(Undefined, false)), false, false))
    case PostFailed(response) =>
      var data := if Nullish(response) then Undefined else Prop(response, "data");
      var message := if Nullish(data) then Undefined else Prop(data, "message");
      SubmitEnd(form, false, Some(Toast(message, false)), false, false)
  }

  // ---------------------------------------------------------------- the dialog

  /** The component's state: `formData`, `loading`, the last toast and whether the
      parent was asked to close the dialog. */
  class TaskDialog {
    var formData: Form
    var loading: bool
    var toast: Option<Toast>
    var closed: bool

    predicate Complete()
      reads this
    {
      formData.Keys == FormKeys
    }

    constructor ()
      ensures formData == EmptyForm() && !loading && toast.None? && !closed
      ensures Complete()
    {
      formData := EmptyForm();
      loading := false;
      toast := None;
      closed := false;
    }

    method HandleChange(name: string, value: Json)
      modifies this
      ensures formData == Changed(old(formData), name, value)
      ensures loading == old(loading) && toast == old(toast) && closed == old(closed)
      ensures old(Complete()) && name in FormKeys ==> Complete()
    {
      formData := Changed(formData, name, value);
    }

    method HandleTagClick(priority: Json)
      modifies this
      ensures formData == WithPriority(old(formData), priority)
      ensures loading == old(loading) && toast == old(toast) && closed == old(closed)
      ensures old(Complete()) ==> Complete()
    {
      formData := WithPriority(formData, priority);
    }

    method HandleAIPriority(priority: Json)
      modifies this
      ensures formData == WithPriority(old(formData), priority)
      ensures loading == old(loading) && toast == old(toast) && closed == old(closed)
      ensures old(Complete()) ==> Complete()
    {
      formData := WithPriority(formData, priority);
    }

    method HandleAIDescription(description: Json)
      modifies this
      ensures formData == WithDescription(old(formData), description)
      ensures loading == old(loading) && toast == old(toast) && closed == old(closed)
      ensures old(Complete()) ==> Complete()
    {
      formData := WithDescription(formData, description);
    }

    /** Returns whether the handler threw; the form is then left as it was. */
    method HandleAISuggestion(suggestion: Json) returns (threw: bool)
      modifies this
      ensures threw <==> Nullish(suggestion)
      ensures threw ==> formData == old(formData)
      ensures !threw ==> formData == WithSuggestion(old(formData), suggestion).value
      ensures loading == old(loading) && toast == old(toast) && closed == old(closed)
      ensures old(Complete()) ==> Complete()
    {
      var r := WithSuggestion(formData, suggestion);
      match r
      case Threw =>
        threw := true;
      case Normal(next) =>
        formData := next;
        threw := false;
    }

    /** `handleSubmit` up to the `await`: the spinner goes on. */
    method BeginSubmit()
      modifies this
      ensures loading
      ensures formData == old(formData) && toast == old(toast) && closed == old(closed)
    {
      loading := true;
    }

    /** `handleSubmit` after the `await`, with the corrected `catch`. */
    method FinishSubmit(outcome: PostOutcome)
      modifies this
      ensures var e := Submit(old(formData), outcome);
        formData == e.form && loading == e.loading && toast == e.toast
        && closed == (old(closed) || e.closed)
      ensures !loading && toast.Some?
      ensures old(Complete()) || outcome.Created? ==> Complete()
    {
      match outcome
      case Created(data) =>
        formData := EmptyForm();
        match GetProp(data, "message") {
          case Normal(message) =>
            toast := Some(Toast(message, true));
            loading := false;
            closed := true;
          case Threw =>
            toast := Some(Toast(Undefined, false));
            loading := false;
        }
      case PostFailed(response) =>
        var data := if Nullish(response) then Undefined else Prop(response, "data");
        var message := if Nullish(data) then Undefined else Prop(data, "message");
        toast := Some(Toast(message, false));
        loading := false;
    }
  }
}

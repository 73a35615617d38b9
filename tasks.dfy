/** The Tasks page: three status buckets over the fetched task documents, a
    rounded percentage ring per bucket, and the colour of a card's tags. */
module TaskBoard {
  import opened Js
  import opened Fallback
  import opened Dashboard

  /** A task document as the API returns it. */
  type Task = map<string, Json>

  function Status(task: Task): Json {
    Field(task, "status")
  }

  /** `!task.status || task.status === 'pending'` */
  predicate IsPending(task: Task) {
    !Truthy(Status(task)) || StrictEq(Status(task), Str("pending"))
  }

  /** `task.status === 'in-progress'` */
  predicate IsInProgress(task: Task) {
    StrictEq(Status(task), Str("in-progress"))
  }

  /** `task.status === 'completed'` */
  predicate IsCompleted(task: Task) {
    StrictEq(Status(task), Str("completed"))
  }

  /** Being in some bucket. */
  predicate IsBucketed(task: Task) {
    IsPending(task) || IsInProgress(task) || IsCompleted(task)
  }

  predicate IsStarted(task: Task) {
    IsPending(task) || IsInProgress(task)
  }

  /** A task lands in a bucket by its status alone, and in at most one. */
  lemma BucketOfStatus(task: Task)
    ensures IsPending(task) <==> Status(task) in {Undefined, Null, Bool(false), Num(0), Str(""), Str("pending")}
    ensures IsInProgress(task) <==> Status(task) == Str("in-progress")
    ensures IsCompleted(task) <==> Status(task) == Str("completed")
    ensures !(IsPending(task) && IsInProgress(task))
    ensures !(IsPending(task) && IsCompleted(task))
    ensures !(IsInProgress(task) && IsCompleted(task))
  {
  }

  /** The pending column holds exactly the tasks whose status is falsy or 'pending'. */
  function PendingTasks(tasks: seq<Task>): (r: seq<Task>)
    ensures forall t :: t in r <==> t in tasks && IsPending(t)
  {
    FilterMembers(tasks, IsPending);
    Filter(tasks, IsPending)
  }

  /** The in-progress column holds exactly the tasks whose status is 'in-progress'. */
  function InProgressTasks(tasks: seq<Task>): (r: seq<Task>)
    ensures forall t :: t in r <==> t in tasks && IsInProgress(t)
  {
    FilterMembers(tasks, IsInProgress);
    Filter(tasks, IsInProgress)
  }

  /** The completed column holds exactly the tasks whose status is 'completed'. */
  function CompletedTasks(tasks: seq<Task>): (r: seq<Task>)
    ensures forall t :: t in r <==> t in tasks && IsCompleted(t)
  {
    FilterMembers(tasks, IsCompleted);
    Filter(tasks, IsCompleted)
  }

  /** The buckets never count a task twice; together they hold every task exactly
      when each task's status is falsy, 'pending', 'in-progress' or 'completed'. */
  lemma BucketSizes(tasks: seq<Task>)
    ensures |PendingTasks(tasks)| + |InProgressTasks(tasks)| + |CompletedTasks(tasks)|
      == |Filter(tasks, IsBucketed)| <= |tasks|
    ensures |PendingTasks(tasks)| + |InProgressTasks(tasks)| + |CompletedTasks(tasks)| == |tasks|
      <==> forall i :: 0 <= i < |tasks| ==> IsBucketed(tasks[i])
  {
    FilterDisjointUnion(tasks, IsPending, IsInProgress, IsStarted);
    FilterDisjointUnion(tasks, IsStarted, IsCompleted, IsBucketed);
    FilterKeepsAll(tasks, IsBucketed);
  }

  /** A task with a status outside the four is shown in no bucket. */
  lemma UnknownStatusShownNowhere(tasks: seq<Task>, i: nat)
    requires i < |tasks| && !IsBucketed(tasks[i])
    ensures tasks[i] !in PendingTasks(tasks)
    ensures tasks[i] !in InProgressTasks(tasks)
    ensures tasks[i] !in CompletedTasks(tasks)
  {
  }

  /** The three percentage labels of the status card. */
  datatype StatusRings = StatusRings(completed: nat, inProgress: nat, pending: nat)

  function Rings(tasks: seq<Task>): (r: StatusRings)
    ensures |tasks| == 0 ==> r == StatusRings(0, 0, 0)
    ensures r.completed <= 100 && r.inProgress <= 100 && r.pending <= 100
  {
    var n := |tasks|;
    StatusRings(Percent(|CompletedTasks(tasks)|, n),
                Percent(|InProgressTasks(tasks)|, n),
                Percent(|PendingTasks(tasks)|, n))
  }

  /** Rounding can push the three labels past 100, but by one point at most. */
  lemma RingsAddUpToAtMost101(tasks: seq<Task>)
    ensures Rings(tasks).completed + Rings(tasks).inProgress + Rings(tasks).pending <= 101
  {
    var n := |tasks|;
    if n > 0 {
      BucketSizes(tasks);
      ThreePercents(|CompletedTasks(tasks)|, |InProgressTasks(tasks)|, |PendingTasks(tasks)|, n);
    }
  }

  /** `getStatusColor`. The page defines it but no task card calls it: cards are
      coloured by priority through `getPriorityColor`. */
  function StatusColor(status: Json): (c: Color)
    ensures c == Green <==> status == Str("completed")
    ensures c == Blue <==> status == Str("in-progress")
    ensures c != Green && c != Blue ==> c == Red
  {
    if StrictEq(status, Str("completed")) then Green
    else if StrictEq(status, Str("in-progress")) then Blue
    else Red
  }

  /** The status colour agrees with the bucket: green for completed tasks, blue for
      tasks in progress, red for pending ones. This is a property of the page's
      unused helper, not of anything it renders. */
  lemma StatusColorMatchesBucket(task: Task)
    ensures StatusColor(Status(task)) == Green <==> IsCompleted(task)
    ensures StatusColor(Status(task)) == Blue <==> IsInProgress(task)
    ensures IsPending(task) ==> StatusColor(Status(task)) == Red
  {
  }
}

/** The Projects page: four status buckets over the fetched project documents, the
    statistics tiles, a rounded percentage ring per bucket, and the tag on each card. */
module ProjectBoard {
  import opened Js
  import opened Fallback
  import opened Dashboard

  /** A project document as the API returns it. */
  type Project = map<string, Json>

  function Status(project: Project): Json {
    Field(project, "status")
  }

  /** `!p.status || p.status === 'On Hold'` */
  predicate IsOnHold(project: Project) {
    !Truthy(Status(project)) || StrictEq(Status(project), Str("On Hold"))
  }

  predicate IsInProgress(project: Project) {
    StrictEq(Status(project), Str("In Progress"))
  }

  predicate IsTesting(project: Project) {
    StrictEq(Status(project), Str("Testing"))
  }

  predicate IsCompleted(project: Project) {
    StrictEq(Status(project), Str("Completed"))
  }

  predicate IsOpen(project: Project) {
    IsOnHold(project) || IsInProgress(project)
  }

  predicate IsUnfinished(project: Project) {
    IsOpen(project) || IsTesting(project)
  }

  predicate IsBucketed(project: Project) {
    IsUnfinished(project) || IsCompleted(project)
  }

  predicate IsWaiting(project: Project) {
    IsOnHold(project) || IsTesting(project)
  }

  /** The on-hold bucket holds exactly the projects whose status is falsy or 'On Hold'. */
  function OnHoldProjects(projects: seq<Project>): (r: seq<Project>)
    ensures forall p :: p in r <==> p in projects && IsOnHold(p)
  {
    FilterMembers(projects, IsOnHold);
    Filter(projects, IsOnHold)
  }

  /** The in-progress bucket holds exactly the projects whose status is 'In Progress'. */
  function InProgressProjects(projects: seq<Project>): (r: seq<Project>)
    ensures forall p :: p in r <==> p in projects && IsInProgress(p)
  {
    FilterMembers(projects, IsInProgress);
    Filter(projects, IsInProgress)
  }

  /** The testing bucket holds exactly the projects whose status is 'Testing'. */
  function TestingProjects(projects: seq<Project>): (r: seq<Project>)
    ensures forall p :: p in r <==> p in projects && IsTesting(p)
  {
    FilterMembers(projects, IsTesting);
    Filter(projects, IsTesting)
  }

  /** The completed bucket holds exactly the projects whose status is 'Completed'. */
  function CompletedProjects(projects: seq<Project>): (r: seq<Project>)
    ensures forall p :: p in r <==> p in projects && IsCompleted(p)
  {
    FilterMembers(projects, IsCompleted);
    Filter(projects, IsCompleted)
  }

  /** A project lands in at most one bucket. */
  lemma BucketsExclusive(project: Project)
    ensures IsOnHold(project) ==> !IsInProgress(project) && !IsTesting(project) && !IsCompleted(project)
    ensures IsInProgress(project) ==> !IsTesting(project) && !IsCompleted(project)
    ensures IsTesting(project) ==> !IsCompleted(project)
  {
  }

  /** The four buckets never count a project twice, so their sizes add up to at most
      `totalProjects`, with equality exactly when every status is one of the four. */
  lemma BucketSizes(projects: seq<Project>)
    ensures |OnHoldProjects(projects)| + |InProgressProjects(projects)|
      + |TestingProjects(projects)| + |CompletedProjects(projects)|
      == |Filter(projects, IsBucketed)| <= |projects|
    ensures |OnHoldProjects(projects)| + |InProgressProjects(projects)|
      + |TestingProjects(projects)| + |CompletedProjects(projects)| == |projects|
      <==> forall i :: 0 <= i < |projects| ==> IsBucketed(projects[i])
  {
    FilterDisjointUnion(projects, IsOnHold, IsInProgress, IsOpen);
    FilterDisjointUnion(projects, IsOpen, IsTesting, IsUnfinished);
    FilterDisjointUnion(projects, IsUnfinished, IsCompleted, IsBucketed);
    FilterKeepsAll(projects, IsBucketed);
  }

  /** The statistics card. */
  datatype Tiles = Tiles(total: nat, completed: nat, inProgress: nat, pendingOrTesting: nat)

  function StatisticsTiles(projects: seq<Project>): (t: Tiles)
    ensures t.total == |projects|
    ensures t.pendingOrTesting == |Filter(projects, IsWaiting)|
    ensures t.completed + t.inProgress + t.pendingOrTesting <= t.total
  {
    BucketSizes(projects);
    FilterDisjointUnion(projects, IsOnHold, IsTesting, IsWaiting);
    FilterDisjointUnion(projects, IsOnHold, IsInProgress, IsOpen);
    FilterDisjointUnion(projects, IsOpen, IsTesting, IsUnfinished);
    Tiles(|projects|, |CompletedProjects(projects)|, |InProgressProjects(projects)|,
          |OnHoldProjects(projects)| + |TestingProjects(projects)|)
  }

  /** The four percentage labels of the status card. */
  datatype StatusRings = StatusRings(completed: nat, inProgress: nat, testing: nat, pending: nat)

  function Rings(projects: seq<Project>): (r: StatusRings)
    ensures |projects| == 0 ==> r == StatusRings(0, 0, 0, 0)
    ensures r.completed <= 100 && r.inProgress <= 100 && r.testing <= 100 && r.pending <= 100
  {
    var n := |projects|;
    StatusRings(Percent(|CompletedProjects(projects)|, n),
                Percent(|InProgressProjects(projects)|, n),
                Percent(|TestingProjects(projects)|, n),
                Percent(|OnHoldProjects(projects)|, n))
  }

  /** Rounding can push the four labels past 100, but by two points at most. */
  lemma RingsAddUpToAtMost102(projects: seq<Project>)
    ensures var r := Rings(projects);
      r.completed + r.inProgress + r.testing + r.pending <= 102
  {
    var n := |projects|;
    if n > 0 {
      BucketSizes(projects);
      FourPercents(|CompletedProjects(projects)|, |InProgressProjects(projects)|,
                   |TestingProjects(projects)|, |OnHoldProjects(projects)|, n);
    }
  }

  /** `getStatusColor` in a project card. */
  function StatusColor(status: Json): (c: Color)
    ensures c == Green <==> status == Str("Completed")
    ensures c == Blue <==> status == Str("In Progress")
    ensures c == Orange <==> status == Str("Testing")
    ensures c in {Green, Blue, Orange, Red}
  {
    if StrictEq(status, Str("Completed")) then Green
    else if StrictEq(status, Str("In Progress")) then Blue
    else if StrictEq(status, Str("Testing")) then Orange
    else Red
  }

  /** A card's tag: what it says and its colour scheme. */
  datatype Tag = Tag(text: Json, color: Color)

  /** The tag of a card in `section`: the priority among the to-do cards, the status
      elsewhere, where a missing status reads 'On Hold'. The colour always agrees with
      the words on the tag. */
  function CardTag(project: Project, section: string): (t: Tag)
    ensures section == "todo" ==> t.text == Field(project, "priority")
    ensures section != "todo" && Truthy(Status(project)) ==> t.text == Status(project)
    ensures section != "todo" && !Truthy(Status(project)) ==> t == Tag(Str("On Hold"), Red)
    ensures t.color == (if section == "todo" then PriorityColor(t.text) else StatusColor(t.text))
  {
    if section == "todo" then
      var priority := Field(project, "priority");
      Tag(priority, PriorityColor(priority))
    else
      Tag(Or(Status(project), Str("On Hold")), StatusColor(Status(project)))
  }

  /** `renderProjectCard` outside the to-do column tags a project with no status
      'On Hold' in red. The page itself renders on-hold projects only in the to-do
      section, and the other sections hold only projects with a truthy status, so
      on this page the `|| 'On Hold'` default is never reached; the lemma is about
      the card function alone. */
  lemma OnHoldCardsTaggedOnHold(project: Project, section: string)
    requires section != "todo" && IsOnHold(project)
    ensures CardTag(project, section) == Tag(Str("On Hold"), Red)
  {
  }
}

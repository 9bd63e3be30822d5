/** The persisted entities (Tag, Task, Project) and the filter that every derived
    list and count of the application is built from. Task and Project refer to each
    other, so they share this module. */
module Entities {
  import opened Wrappers
  import opened Sequences
  import opened Workflow

  /** A `UUID`, as an abstract identity. */
  type Uuid = nat

  /** A `Date`, as an abstract point in time. */
  type Timestamp = int

  /** The tag entity: an identity and a name; compared as a value. */
  datatype Tag = Tag(id: Uuid, name: string)

  /** The stored fields of a task at one moment. */
  datatype TaskInfo = TaskInfo(
    id: Uuid,
    title: string,
    desc: string,
    tag: Optional<Tag>,
    isCompleted: bool,
    status: Status,
    priority: Priority,
    lastUpdated: Timestamp,
    project: Project?)

  /** The application's intended completion rule: a task is completed exactly when it is Done. */
  predicate CompletionConsistent(i: TaskInfo)
  {
    i.isCompleted == (i.status == Done)
  }

  /** The task entity. The field set is the union of both revisions: the older one has
      no `lastUpdated` and an optional `project`. */
  class Task {
    var id: Uuid
    var title: string
    var desc: string
    var tag: Optional<Tag>
    var isCompleted: bool
    var status: Status
    var priority: Priority
    var lastUpdated: Timestamp
    var project: Project?

    /** `Task.init` of the current revision; `id` (a fresh UUID) and `lastUpdated`
        (the clock) are supplied by the caller. */
    constructor (id: Uuid, title: string, desc: string := "", tag: Optional<Tag> := Nil,
                 isCompleted: bool := false, status: Status := Backlog, priority: Priority := None,
                 lastUpdated: Timestamp, project: Project)
      ensures Info() == TaskInfo(id, title, desc, tag, isCompleted, status, priority, lastUpdated, project)
    {
      this.id := id;
      this.title := title;
      this.desc := desc;
      this.tag := tag;
      this.isCompleted := isCompleted;
      this.status := status;
      this.priority := priority;
      this.lastUpdated := lastUpdated;
      this.project := project;
    }

    /** `Task.init` of the older revision, which has no `lastUpdated` field: the model leaves it unconstrained. */
    constructor Legacy(id: Uuid, title: string, desc: string := "", tag: Optional<Tag> := Nil,
                       isCompleted: bool := false, status: Status := Backlog, priority: Priority := None,
                       project: Project? := null)
      ensures this.id == id && this.title == title && this.desc == desc && this.tag == tag
      ensures this.isCompleted == isCompleted && this.status == status && this.priority == priority
      ensures this.project == project
    {
      this.id := id;
      this.title := title;
      this.desc := desc;
      this.tag := tag;
      this.isCompleted := isCompleted;
      this.status := status;
      this.priority := priority;
      this.project := project;
    }

    function Info(): TaskInfo
      reads this
    {
      TaskInfo(id, title, desc, tag, isCompleted, status, priority, lastUpdated, project)
    }

    /** `updateStatus` of the current revision: only `status` changes. */
    method UpdateStatus()
      modifies this
      ensures status == NextStatus(old(status))
      ensures Info() == old(Info()).(status := status)
    {
      match status
      case Backlog => status := Doing;
      case Doing => status := Review;
      case Review => status := Done;
      case Done => status := Review;
    }

    /** `updateStatus` of the older revision: only `status` changes. */
    method LegacyUpdateStatus()
      modifies this
      ensures status == LegacyNextStatus(old(status))
      ensures Info() == old(Info()).(status := status)
    {
      match status
      case Backlog => status := Doing;
      case Doing => status := Done;
      case Done => status := Review;
      case Review => status := Review;
    }

    function GetPriorityColor(): NamedColor
      reads this
    {
      PriorityColor(priority)
    }

    function GetPriorityImage(): string
      reads this
    {
      PriorityImage(priority)
    }

    function GetStatusImage(): string
      reads this
    {
      StatusImage(status)
    }
  }

  /** Swift's `tasks.filter { keep($0) }` over task references, judged on their current fields. */
  function Filter(ts: seq<Task>, keep: TaskInfo -> bool): (r: seq<Task>)
    reads ts
    ensures |r| <= |ts|
    ensures forall t :: t in r ==> t in ts && keep(t.Info())
  {
    if ts == [] then []
    else if keep(ts[0].Info()) then [ts[0]] + Filter(ts[1..], keep)
    else Filter(ts[1..], keep)
  }

  /** A filter keeps the original order: its result is a subsequence of its input. */
  lemma {:induction false} FilterSubseq(ts: seq<Task>, keep: TaskInfo -> bool)
    ensures Subseq(Filter(ts, keep), ts)
  {
    if ts != [] {
      FilterSubseq(ts[1..], keep);
    }
  }

  /** A filter keeps every occurrence of a kept task and no occurrence of any other. */
  lemma {:induction false} FilterMultiplicity(ts: seq<Task>, keep: TaskInfo -> bool, t: Task)
    ensures multiset(Filter(ts, keep))[t] == if keep(t.Info()) then multiset(ts)[t] else 0
  {
    if ts != [] {
      FilterMultiplicity(ts[1..], keep, t);
      assert ts == [ts[0]] + ts[1..];
    }
  }

  /** A task is in a filter's result exactly when it is in the input and passes the predicate. */
  lemma {:induction false} FilterMembership(ts: seq<Task>, keep: TaskInfo -> bool)
    ensures forall t :: t in Filter(ts, keep) <==> t in ts && keep(t.Info())
  {
    if ts != [] {
      FilterMembership(ts[1..], keep);
      assert ts == [ts[0]] + ts[1..];
    }
  }

  function Not(keep: TaskInfo -> bool): TaskInfo -> bool
  {
    (i: TaskInfo) => !keep(i)
  }

  predicate IsCompleted(i: TaskInfo)
  {
    i.isCompleted
  }

  function HasStatus(s: Status): TaskInfo -> bool
  {
    (i: TaskInfo) => i.status == s
  }

  /** The status-bucket predicate of `statusTaskCount`. */
  function OpenWithStatus(s: Status): TaskInfo -> bool
  {
    (i: TaskInfo) => i.status == s && !i.isCompleted
  }

  /** The priority-bucket predicate of `priorityTaskCount`. */
  function OpenWithPriority(p: Priority): TaskInfo -> bool
  {
    (i: TaskInfo) => i.priority == p && !i.isCompleted
  }

  /** The predicate of `removeAll(where: { $0.id == id })`, negated: what is kept. */
  function OtherId(id: Uuid): TaskInfo -> bool
  {
    (i: TaskInfo) => i.id != id
  }

  /** `removeAll(where: { $0.id == id })`: what stays is the filter on every other id. */
  function WithoutId(ts: seq<Task>, id: Uuid): (r: seq<Task>)
    reads ts
    ensures forall t :: t in r ==> t in ts && t.id != id
  {
    Filter(ts, OtherId(id))
  }

  /** Removing by id keeps every other task, each as often as before, in the original order. */
  lemma WithoutIdKeepsOthers(ts: seq<Task>, id: Uuid)
    ensures Subseq(WithoutId(ts, id), ts)
    ensures forall t :: t in ts && t.id != id ==> multiset(WithoutId(ts, id))[t] == multiset(ts)[t]
    ensures forall t :: t in ts && t.id == id ==> t !in WithoutId(ts, id)
  {
    FilterSubseq(ts, OtherId(id));
    forall t | t in ts && t.id != id
      ensures multiset(WithoutId(ts, id))[t] == multiset(ts)[t]
    {
      FilterMultiplicity(ts, OtherId(id), t);
    }
  }

  /** `Double(done) / Double(total)` with the empty guard of `progressValue`. */
  function Ratio(done: nat, total: nat): (r: real)
    requires done <= total
    ensures total == 0 ==> r == 0.0
    ensures 0.0 <= r <= 1.0
    ensures total > 0 ==> r == done as real / total as real
  {
    if total == 0 then 0.0
    else
      var q := (done as real) / (total as real);
      assert q * (total as real) == done as real;
      q
  }

  /** The project entity. The stored list is `ProjectTasks`; the views call the same list `projectTasks`. */
  class Project {
    var id: Uuid
    var projectName: string
    var projectColor: string
    var ProjectTasks: seq<Task>
    var isArchived: bool

    constructor (id: Uuid, projectName: string, projectColor: string,
                 projectTasks: seq<Task> := [], isArchived: bool := false)
      ensures this.id == id && this.projectName == projectName && this.projectColor == projectColor
      ensures ProjectTasks == projectTasks && this.isArchived == isArchived
    {
      this.id := id;
      this.projectName := projectName;
      this.projectColor := projectColor;
      this.ProjectTasks := projectTasks;
      this.isArchived := isArchived;
    }

    function CompletedTaskCount(): (n: nat)
      reads this, ProjectTasks
      ensures n <= |ProjectTasks|
    {
      |Filter(ProjectTasks, IsCompleted)|
    }

    function UncompletedTaskCount(): (n: nat)
      reads this, ProjectTasks
      ensures n <= |ProjectTasks|
    {
      |Filter(ProjectTasks, Not(IsCompleted))|
    }

    /** Open tasks with the given status; completed tasks are never counted. */
    function StatusTaskCount(s: Status): (n: nat)
      reads this, ProjectTasks
      ensures n <= |ProjectTasks|
    {
      |Filter(ProjectTasks, OpenWithStatus(s))|
    }

    /** Open tasks with the given priority; completed tasks are never counted. */
    function PriorityTaskCount(p: Priority): (n: nat)
      reads this, ProjectTasks
      ensures n <= |ProjectTasks|
    {
      |Filter(ProjectTasks, OpenWithPriority(p))|
    }

    /** The completed fraction, 0 for a project without tasks. */
    function ProgressValue(): (r: real)
      reads this, ProjectTasks
      ensures ProjectTasks == [] ==> r == 0.0
      ensures 0.0 <= r <= 1.0
      ensures ProjectTasks != [] ==> r == CompletedTaskCount() as real / |ProjectTasks| as real
    {
      if ProjectTasks == [] then 0.0
      else
        Ratio(CompletedTaskCount(), |ProjectTasks|)
    }

    /** `removeTaskFromProject`: drops every task with the target's id, in place. */
    method RemoveTaskFromProject(targetTask: Task)
      modifies this`ProjectTasks
      ensures ProjectTasks == WithoutId(old(ProjectTasks), targetTask.id)
    {
      ProjectTasks := WithoutId(ProjectTasks, targetTask.id);
    }
  }
}

/** The cross-project status column of the older revision (Views/ProgressCardView.swift). */
module LegacyProgressCard {
  import opened Sequences
  import opened Workflow
  import opened Entities

  /** Every task of every project: what the column's filters read. */
  function TaskFootprint(projects: seq<Project>): set<object>
    reads projects
  {
    set p, t | p in projects && t in p.ProjectTasks :: t
  }

  /** `projects.flatMap { $0.ProjectTasks.filter { $0.status == currentStatus } }`: each project's
      matching tasks, project after project. */
  function MatchingTasks(projects: seq<Project>, currentStatus: Status): (r: seq<Task>)
    reads projects, TaskFootprint(projects)
    ensures forall t :: t in r ==> t.status == currentStatus
    ensures forall t :: t in r ==> exists p :: p in projects && t in p.ProjectTasks
    ensures forall p, t :: p in projects && t in p.ProjectTasks && t.status == currentStatus ==> t in r
  {
    if projects == [] then []
    else
      var p := projects[0];
      FilterMembership(p.ProjectTasks, HasStatus(currentStatus));
      assert TaskFootprint(projects[1..]) <= TaskFootprint(projects);
      assert forall t :: t in p.ProjectTasks ==> t in TaskFootprint(projects);
      Filter(p.ProjectTasks, HasStatus(currentStatus)) + MatchingTasks(projects[1..], currentStatus)
  }

  /** `Set(...)` of the flattened list: the tasks with the column's status, in any project. */
  function ProjectItemSet(projects: seq<Project>, currentStatus: Status): (r: set<Task>)
    reads projects, TaskFootprint(projects)
    ensures forall t :: t in r ==> t.status == currentStatus && exists p :: p in projects && t in p.ProjectTasks
    ensures forall p, t :: p in projects && t in p.ProjectTasks && t.status == currentStatus ==> t in r
    ensures |r| <= |MatchingTasks(projects, currentStatus)|
  {
    var all := MatchingTasks(projects, currentStatus);
    ElementsBound(all);
    Elements(all)
  }

  /** `projectItems`: `Array(uniqueTasks)`, whose order Swift leaves unspecified. No task is listed
      twice, the listed tasks are exactly those with the column's status in some project, and there
      are at most as many as the per-project matches added up. */
  ghost function ProjectItems(projects: seq<Project>, currentStatus: Status): (r: seq<Task>)
    reads projects, TaskFootprint(projects)
    ensures Distinct(r)
    ensures forall t :: t in r ==> t.status == currentStatus && exists p :: p in projects && t in p.ProjectTasks
    ensures forall p, t :: p in projects && t in p.ProjectTasks && t.status == currentStatus ==> t in r
    ensures |r| <= |MatchingTasks(projects, currentStatus)|
  {
    var items := ProjectItemSet(projects, currentStatus);
    var r := SetToSeq(items);
    assert forall t :: t in r ==> t in Elements(r);
    r
  }

  /** The row's completion button flips `isCompleted` and changes nothing else; the status stays. */
  method ToggleCompletion(taskItem: Task)
    modifies taskItem
    ensures taskItem.Info() == old(taskItem.Info()).(isCompleted := !old(taskItem.isCompleted))
  {
    taskItem.isCompleted := !taskItem.isCompleted;
  }
}

/** The logic inside the project detail screen
    (Fini-PM/Views/ProjectViews/DetailsView/DetailsView.swift): the completed list,
    the per-status task list and the tap-to-advance handler. */
module DetailsScreen {
  import opened Sequences
  import opened Workflow
  import opened Entities

  /** `completedTasks`: the project's completed tasks, in the project's order. */
  function CompletedTasks(p: Project): (r: seq<Task>)
    reads p, p.ProjectTasks
    ensures Subseq(r, p.ProjectTasks)
    ensures forall t :: t in r ==> t in p.ProjectTasks && t.isCompleted
    ensures forall t :: t in p.ProjectTasks && t.isCompleted ==> t in r
    ensures |r| == p.CompletedTaskCount()
  {
    FilterSubseq(p.ProjectTasks, IsCompleted);
    FilterMembership(p.ProjectTasks, IsCompleted);
    Filter(p.ProjectTasks, IsCompleted)
  }

  /** One block of `taskListView`: a status, whether its header is drawn, and its rows. */
  datatype Section = Section(status: Status, showsHeader: bool, tasks: seq<Task>)

  /** The block for one status: the header is drawn only when the filtered rows are non-empty. */
  function StatusSection(ts: seq<Task>, s: Status): Section
    reads ts
  {
    var rows := Filter(ts, HasStatus(s));
    Section(s, rows != [], rows)
  }

  /** `taskListView`: one block per case of `Status.allCases`, in declaration order. */
  function TaskListView(p: Project): (r: seq<Section>)
    reads p, p.ProjectTasks
    ensures |r| == |AllStatuses|
    ensures forall k :: 0 <= k < |r| ==> r[k].status == AllStatuses[k]
    ensures forall k :: 0 <= k < |r| ==> (r[k].showsHeader <==> r[k].tasks != [])
  {
    var ts := p.ProjectTasks;
    [StatusSection(ts, Backlog), StatusSection(ts, Doing), StatusSection(ts, Review), StatusSection(ts, Done)]
  }

  /** The four status filters split a list: together they hold each task exactly as often as the list does. */
  lemma {:induction false} StatusGroupsPartition(ts: seq<Task>)
    ensures multiset(Filter(ts, HasStatus(Backlog))) + multiset(Filter(ts, HasStatus(Doing)))
          + multiset(Filter(ts, HasStatus(Review))) + multiset(Filter(ts, HasStatus(Done))) == multiset(ts)
  {
    if ts != [] {
      StatusGroupsPartition(ts[1..]);
      assert ts == [ts[0]] + ts[1..];
    }
  }

  /** The blocks of `taskListView` hold each task of the project exactly as often as the project
      does, so their sizes add up to the number of tasks. */
  lemma TaskListPartition(p: Project)
    ensures var r := TaskListView(p);
      && multiset(r[0].tasks) + multiset(r[1].tasks) + multiset(r[2].tasks) + multiset(r[3].tasks)
         == multiset(p.ProjectTasks)
      && |r[0].tasks| + |r[1].tasks| + |r[2].tasks| + |r[3].tasks| == |p.ProjectTasks|
  {
    var r := TaskListView(p);
    StatusGroupsPartition(p.ProjectTasks);
    assert |multiset(r[0].tasks) + multiset(r[1].tasks) + multiset(r[2].tasks) + multiset(r[3].tasks)|
        == |multiset(p.ProjectTasks)|;
  }

  /** Each task of the project is listed in the block of its own status and in no other, and every
      block keeps the project's order. */
  lemma TaskListMembership(p: Project)
    ensures var r := TaskListView(p);
      && (forall k, t :: 0 <= k < |r| && t in p.ProjectTasks ==> (t in r[k].tasks <==> t.status == AllStatuses[k]))
      && (forall k :: 0 <= k < |r| ==> Subseq(r[k].tasks, p.ProjectTasks))
  {
    var ts := p.ProjectTasks;
    forall s | s in AllStatuses
      ensures Subseq(Filter(ts, HasStatus(s)), ts)
      ensures forall t :: t in Filter(ts, HasStatus(s)) <==> t in ts && t.status == s
    {
      FilterMembership(ts, HasStatus(s));
      FilterSubseq(ts, HasStatus(s));
      forall t: Task ensures HasStatus(s)(t.Info()) == (t.status == s) {
      }
    }
  }

  /** A header appears exactly when some task of the project has that block's status. */
  lemma HeaderIffStatusPresent(p: Project, k: nat)
    requires k < |AllStatuses|
    ensures TaskListView(p)[k].showsHeader <==> exists t :: t in p.ProjectTasks && t.status == AllStatuses[k]
  {
    FilterMembership(p.ProjectTasks, HasStatus(AllStatuses[k]));
    var rows := TaskListView(p)[k].tasks;
    if rows != [] {
      assert rows[0] in rows;
    }
  }

  /** The `onTapGesture` handler of a task row: advance the status, make `isCompleted` agree with
      Done, and stamp the task with the current time. Nothing else of the task changes. */
  method TapStatusIcon(taskItem: Task, now: Timestamp)
    modifies taskItem
    ensures taskItem.Info() == old(taskItem.Info()).(
      status := NextStatus(old(taskItem.status)),
      isCompleted := NextStatus(old(taskItem.status)) == Done,
      lastUpdated := now)
  {
    taskItem.UpdateStatus();
    if taskItem.status == Done {
      taskItem.isCompleted := true;
    } else {
      taskItem.isCompleted := false;
    }
    taskItem.lastUpdated := now;
  }

  /** Whatever the stored flag was, after a tap the task is completed exactly when it is Done, it is
      never back in Backlog, and tapping a task in Review completes it. */
  lemma TapRestoresCompletionRule(before: TaskInfo, now: Timestamp)
    ensures var after := before.(status := NextStatus(before.status),
                                  isCompleted := NextStatus(before.status) == Done, lastUpdated := now);
      && CompletionConsistent(after)
      && after.status != Backlog
      && (before.status == Review ==> after.status == Done && after.isCompleted)
      && (before.status == Done ==> after.status == Review && !after.isCompleted)
  {
  }
}

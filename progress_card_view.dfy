/** The status columns of the home screen (Fini-PM/Views/ProgressCardView.swift): which tasks a
    column lists, its count, and its advance button. */
module ProgressCard {
  import opened Sequences
  import opened Workflow
  import opened Entities
  import DetailsScreen

  /** The Done column's predicate: status Done and touched on the current day. Whether a
      timestamp falls on today is the calendar's decision and is passed in as `isToday`. */
  function DoneToday(isToday: Timestamp -> bool): TaskInfo -> bool
  {
    (i: TaskInfo) => i.status == Done && isToday(i.lastUpdated)
  }

  /** Whether a task belongs in the column for `currentStatus`. */
  predicate InColumn(i: TaskInfo, currentStatus: Status, isToday: Timestamp -> bool)
  {
    i.status == currentStatus && (currentStatus == Done ==> isToday(i.lastUpdated))
  }

  /** `tasks`: the Done column lists only the Done tasks updated today; every other column lists all
      tasks of its status. Either way the list keeps the order of `allTasks`. */
  function ColumnTasks(allTasks: seq<Task>, currentStatus: Status, isToday: Timestamp -> bool): (r: seq<Task>)
    reads allTasks
    ensures Subseq(r, allTasks)
    ensures forall t :: t in r ==> t in allTasks && t.status == currentStatus
    ensures currentStatus == Done ==> forall t :: t in r ==> isToday(t.lastUpdated)
    ensures forall t :: t in allTasks && InColumn(t.Info(), currentStatus, isToday) ==> t in r
  {
    if currentStatus == Done then
      FilterSubseq(allTasks, DoneToday(isToday));
      FilterMembership(allTasks, DoneToday(isToday));
      Filter(allTasks, DoneToday(isToday))
    else
      FilterSubseq(allTasks, HasStatus(currentStatus));
      FilterMembership(allTasks, HasStatus(currentStatus));
      Filter(allTasks, HasStatus(currentStatus))
  }

  /** `body`: the empty placeholder is drawn exactly when no task qualifies for the column. */
  function ShowsEmptyView(allTasks: seq<Task>, currentStatus: Status, isToday: Timestamp -> bool): (b: bool)
    reads allTasks
    ensures b <==> forall t :: t in allTasks ==> !InColumn(t.Info(), currentStatus, isToday)
  {
    var tasks := ColumnTasks(allTasks, currentStatus, isToday);
    assert tasks != [] ==> tasks[0] in tasks;
    tasks == []
  }

  /** The number in the column header: the number of listed tasks, never more than all tasks,
      and for any column but Done never fewer than the tasks of that status. */
  function HeaderCount(allTasks: seq<Task>, currentStatus: Status, isToday: Timestamp -> bool): (n: nat)
    reads allTasks
    ensures n <= |allTasks|
    ensures n == 0 <==> ShowsEmptyView(allTasks, currentStatus, isToday)
    ensures currentStatus != Done ==> n == |Filter(allTasks, HasStatus(currentStatus))|
  {
    |ColumnTasks(allTasks, currentStatus, isToday)|
  }

  /** The column's task button: the same handler as the detail screen's status icon. */
  method AdvanceButton(taskItem: Task, now: Timestamp)
    modifies taskItem
    ensures taskItem.Info() == old(taskItem.Info()).(
      status := NextStatus(old(taskItem.status)),
      isCompleted := NextStatus(old(taskItem.status)) == Done,
      lastUpdated := now)
  {
    DetailsScreen.TapStatusIcon(taskItem, now);
  }

  /** Advancing a listed Review task at a moment the calendar calls today moves it into the Done
      column and out of the Review column. */
  method AdvanceFromReviewIntoDone(allTasks: seq<Task>, t: Task, now: Timestamp, isToday: Timestamp -> bool)
    requires t in allTasks && t.status == Review && isToday(now)
    modifies t
    ensures t in ColumnTasks(allTasks, Done, isToday) && !ShowsEmptyView(allTasks, Done, isToday)
    ensures t !in ColumnTasks(allTasks, Review, isToday)
  {
    AdvanceButton(t, now);
    assert InColumn(t.Info(), Done, isToday);
  }
}

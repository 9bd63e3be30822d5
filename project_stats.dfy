/** What the counting helpers of `Project` promise about each other. */
module ProjectStats {
  import opened Workflow
  import opened Entities

  /** A filter and its negation split a list: every task lands on exactly one side. */
  lemma {:induction false} FilterComplement(ts: seq<Task>, keep: TaskInfo -> bool)
    ensures |Filter(ts, keep)| + |Filter(ts, Not(keep))| == |ts|
  {
    if ts != [] {
      FilterComplement(ts[1..], keep);
    }
  }

  /** A stricter filter never keeps more tasks. */
  lemma {:induction false} FilterMonotone(ts: seq<Task>, strict: TaskInfo -> bool, loose: TaskInfo -> bool)
    requires forall i :: strict(i) ==> loose(i)
    ensures |Filter(ts, strict)| <= |Filter(ts, loose)|
  {
    if ts != [] {
      FilterMonotone(ts[1..], strict, loose);
    }
  }

  /** One step of a filter: the head counts exactly when it is kept. */
  lemma FilterCount(ts: seq<Task>, keep: TaskInfo -> bool)
    requires ts != []
    ensures |Filter(ts, keep)| == (if keep(ts[0].Info()) then 1 else 0) + |Filter(ts[1..], keep)|
  {
  }

  /** `completedTaskCount() + uncompletedTaskCount()` is the number of tasks. */
  lemma CountsPartition(p: Project)
    ensures p.CompletedTaskCount() + p.UncompletedTaskCount() == |p.ProjectTasks|
  {
    FilterComplement(p.ProjectTasks, IsCompleted);
  }

  /** `statusTaskCount(s)` never counts a completed task, so it is at most `uncompletedTaskCount()`. */
  lemma StatusCountExcludesCompleted(p: Project, s: Status)
    ensures forall t :: t in p.ProjectTasks && t.isCompleted ==> t !in Filter(p.ProjectTasks, OpenWithStatus(s))
    ensures p.StatusTaskCount(s) <= p.UncompletedTaskCount()
  {
    forall i | OpenWithStatus(s)(i) ensures Not(IsCompleted)(i) {
      assert !i.isCompleted;
      assert Not(IsCompleted)(i) == !IsCompleted(i);
    }
    FilterMonotone(p.ProjectTasks, OpenWithStatus(s), Not(IsCompleted));
  }

  /** `priorityTaskCount(p)` never counts a completed task, so it is at most `uncompletedTaskCount()`. */
  lemma PriorityCountExcludesCompleted(p: Project, pr: Priority)
    ensures forall t :: t in p.ProjectTasks && t.isCompleted ==> t !in Filter(p.ProjectTasks, OpenWithPriority(pr))
    ensures p.PriorityTaskCount(pr) <= p.UncompletedTaskCount()
  {
    forall i | OpenWithPriority(pr)(i) ensures Not(IsCompleted)(i) {
      assert !i.isCompleted;
      assert Not(IsCompleted)(i) == !IsCompleted(i);
    }
    FilterMonotone(p.ProjectTasks, OpenWithPriority(pr), Not(IsCompleted));
  }

  lemma {:induction false} PriorityBucketsSum(ts: seq<Task>)
    ensures |Filter(ts, OpenWithPriority(None))| + |Filter(ts, OpenWithPriority(Low))|
          + |Filter(ts, OpenWithPriority(Medium))| + |Filter(ts, OpenWithPriority(High))|
         == |Filter(ts, Not(IsCompleted))|
  {
    if ts != [] {
      PriorityBucketsSum(ts[1..]);
      FilterCount(ts, OpenWithPriority(None));
      FilterCount(ts, OpenWithPriority(Low));
      FilterCount(ts, OpenWithPriority(Medium));
      FilterCount(ts, OpenWithPriority(High));
      FilterCount(ts, Not(IsCompleted));
      assert Not(IsCompleted)(ts[0].Info()) == !IsCompleted(ts[0].Info());
    }
  }

  lemma {:induction false} StatusBucketsSum(ts: seq<Task>)
    ensures |Filter(ts, OpenWithStatus(Backlog))| + |Filter(ts, OpenWithStatus(Doing))|
          + |Filter(ts, OpenWithStatus(Review))| + |Filter(ts, OpenWithStatus(Done))|
         == |Filter(ts, Not(IsCompleted))|
  {
    if ts != [] {
      StatusBucketsSum(ts[1..]);
      FilterCount(ts, OpenWithStatus(Backlog));
      FilterCount(ts, OpenWithStatus(Doing));
      FilterCount(ts, OpenWithStatus(Review));
      FilterCount(ts, OpenWithStatus(Done));
      FilterCount(ts, Not(IsCompleted));
      assert Not(IsCompleted)(ts[0].Info()) == !IsCompleted(ts[0].Info());
    }
  }

  /** The four priority buckets together hold exactly the uncompleted tasks. */
  lemma PriorityCountsSum(p: Project)
    ensures p.PriorityTaskCount(None) + p.PriorityTaskCount(Low) + p.PriorityTaskCount(Medium)
          + p.PriorityTaskCount(High) == p.UncompletedTaskCount()
  {
    PriorityBucketsSum(p.ProjectTasks);
  }

  /** The four status buckets together hold exactly the uncompleted tasks. */
  lemma StatusCountsSum(p: Project)
    ensures p.StatusTaskCount(Backlog) + p.StatusTaskCount(Doing) + p.StatusTaskCount(Review)
          + p.StatusTaskCount(Done) == p.UncompletedTaskCount()
  {
    StatusBucketsSum(p.ProjectTasks);
  }

  /** `progressValue()` is 1 exactly when every task of a non-empty project is completed. */
  lemma ProgressFullIffAllCompleted(p: Project)
    requires p.ProjectTasks != []
    ensures p.ProgressValue() == 1.0 <==> p.UncompletedTaskCount() == 0
  {
    CountsPartition(p);
  }
}

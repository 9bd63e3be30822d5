/** The task detail card (Fini-PM/Views/TaskCardView.swift): its seeded form fields and the
    control buttons. */
module TaskCard {
  import opened Wrappers
  import opened Workflow
  import opened Entities

  class TaskCardView {
    const taskItem: Task
    var titleField: string
    var descField: string
    var taskItemTag: Optional<Tag>
    var presentingConfirm: bool

    /** `init(taskItem:)`: the title and description fields start as the task's; the tag field
        starts nil and takes the task's tag only when it has one. */
    constructor (taskItem: Task)
      ensures this.taskItem == taskItem
      ensures titleField == taskItem.title && descField == taskItem.desc
      ensures taskItemTag == taskItem.tag
      ensures !presentingConfirm
    {
      this.taskItem := taskItem;
      titleField := taskItem.title;
      descField := taskItem.desc;
      taskItemTag := Nil;
      presentingConfirm := false;
      if taskItem.tag != Nil {
        taskItemTag := taskItem.tag;
      }
    }

    /** The trash button only asks for confirmation. */
    method TrashButton()
      modifies this`presentingConfirm
      ensures presentingConfirm
    {
      presentingConfirm := true;
    }

    /** The right-hand control button. On a Done task it flips `isCompleted` and nothing else; on any
        other task it advances the status and makes `isCompleted` agree with Done, leaving
        `lastUpdated` and every other field as they were. */
    method ControlButton()
      modifies taskItem
      ensures old(taskItem.status) == Done ==>
        taskItem.Info() == old(taskItem.Info()).(isCompleted := !old(taskItem.isCompleted))
      ensures old(taskItem.status) != Done ==>
        taskItem.Info() == old(taskItem.Info()).(
          status := NextStatus(old(taskItem.status)),
          isCompleted := NextStatus(old(taskItem.status)) == Done)
    {
      if taskItem.status == Done {
        taskItem.isCompleted := !taskItem.isCompleted;
      } else {
        taskItem.UpdateStatus();
        if taskItem.status == Done {
          taskItem.isCompleted := true;
        } else {
          taskItem.isCompleted := false;
        }
      }
    }
  }

  /** Pressing the control button on a task in Review finishes it: Done and completed. */
  method PressFromReview(card: TaskCardView)
    requires card.taskItem.status == Review
    modifies card.taskItem
    ensures card.taskItem.status == Done && card.taskItem.isCompleted
    ensures card.taskItem.lastUpdated == old(card.taskItem.lastUpdated)
  {
    card.ControlButton();
  }

  /** Pressing twice on a Done task restores its completion flag. */
  method PressDoneTwice(card: TaskCardView)
    requires card.taskItem.status == Done
    modifies card.taskItem
    ensures card.taskItem.Info() == old(card.taskItem.Info())
  {
    card.ControlButton();
    card.ControlButton();
  }
}

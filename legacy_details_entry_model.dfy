/** The task form of the older revision (Models/DetailsEntryModel.swift): it can only create tasks. */
module LegacyDetailsEntry {
  import opened Wrappers
  import opened Workflow
  import opened Entities
  import opened Persistence

  class DetailsEntryModel {
    var projectItem: Project?
    var taskItem: Task?
    var taskIsNil: bool
    var taskItemTitle: string
    var taskItemDesc: string
    var tag: Optional<Tag>
    var status: Status
    var priority: Priority
    var addingDesc: bool

    predicate IsReset()
      reads this
    {
      taskItemTitle == "" && taskItemDesc == "" && tag == Nil && status == Backlog
      && priority == None && !addingDesc
    }

    constructor ()
      ensures projectItem == null && taskItem == null && !taskIsNil && IsReset()
    {
      projectItem, taskItem := null, null;
      taskIsNil := false;
      taskItemTitle, taskItemDesc := "", "";
      tag := Nil;
      status, priority := Backlog, None;
      addingDesc := false;
    }

    /** `resetState`: the same defaults as the current revision. */
    method ResetState()
      modifies this
      ensures IsReset()
      ensures projectItem == old(projectItem) && taskItem == old(taskItem) && taskIsNil == old(taskIsNil)
    {
      addingDesc := false;
      taskItemTitle := "";
      taskItemDesc := "";
      status := Backlog;
      priority := None;
      tag := Nil;
    }

    method SetProjectItem(projectItem: Project)
      modifies this`projectItem
      ensures this.projectItem == projectItem
    {
      this.projectItem := projectItem;
    }

    /** `setTaskItem`: binds the form to a task and loads its five editable fields. */
    method SetTaskItem(taskItem: Task)
      modifies this`taskItem, this`taskItemTitle, this`taskItemDesc, this`tag, this`status, this`priority
      ensures this.taskItem == taskItem
      ensures taskItemTitle == taskItem.title && taskItemDesc == taskItem.desc && tag == taskItem.tag
      ensures status == taskItem.status && priority == taskItem.priority
    {
      this.taskItem := taskItem;
      taskItemTitle := taskItem.title;
      taskItemDesc := taskItem.desc;
      tag := taskItem.tag;
      status := taskItem.status;
      priority := taskItem.priority;
    }

    /** `addTaskToProject`: appends to the selected project's list; without a project nothing happens. */
    method AddTaskToProject(task: Task)
      modifies projectItem
      ensures projectItem != null ==> projectItem.ProjectTasks == old(projectItem.ProjectTasks) + [task]
      ensures projectItem != null ==>
        && projectItem.projectName == old(projectItem.projectName)
        && projectItem.projectColor == old(projectItem.projectColor)
        && projectItem.isArchived == old(projectItem.isArchived) && projectItem.id == old(projectItem.id)
    {
      if projectItem == null {
        return;
      }
      projectItem.ProjectTasks := projectItem.ProjectTasks + [task];
    }

    /** `saveTask`: with a non-empty title, inserts a new task built from the form (the bound task,
        if any, is ignored) and clears the form; it never calls `save()`. The force-unwrap
        `projectItem!` traps when no project is selected, hence the precondition. */
    method SaveTask(context: ModelContext, newId: Uuid)
      requires taskItemTitle != "" ==> projectItem != null
      modifies this, context
      ensures projectItem == old(projectItem) && taskItem == old(taskItem) && taskIsNil == old(taskIsNil)
      ensures old(taskItemTitle) == "" ==>
        && context.State() == old(context.State())
        && taskItemDesc == old(taskItemDesc) && tag == old(tag) && status == old(status)
        && priority == old(priority) && addingDesc == old(addingDesc) && taskItemTitle == old(taskItemTitle)
      ensures old(taskItemTitle) != "" ==>
        && |context.insertedTasks| == |old(context.insertedTasks)| + 1
        && context.State() == old(context.State()).(insertedTasks := context.insertedTasks)
        && context.insertedTasks[..|old(context.insertedTasks)|] == old(context.insertedTasks)
        && var t := context.insertedTasks[|old(context.insertedTasks)|];
           && fresh(t) && t.id == newId && t.title == old(taskItemTitle) && t.desc == old(taskItemDesc)
           && t.tag == old(tag) && !t.isCompleted && t.status == old(status) && t.priority == old(priority)
           && t.project == old(projectItem)
           && IsReset()
    {
      if taskItemTitle == "" {
        return;
      }
      var newTask := new Task.Legacy(newId, taskItemTitle, taskItemDesc, tag, status := status,
                                     priority := priority, project := projectItem);
      context.InsertTask(newTask);
      ResetState();
    }

    /** `setProject`: points the bound task at the selected project when both are set; without a
        project the bound task is left as it was. */
    method SetProject()
      modifies taskItem
      ensures taskItem != null && projectItem != null ==>
        taskItem.Info() == old(taskItem.Info()).(project := projectItem)
      ensures taskItem != null && projectItem == null ==> taskItem.Info() == old(taskItem.Info())
    {
      if taskItem == null || projectItem == null {
        return;
      }
      taskItem.project := projectItem;
    }

    /** `updatePriority`: copies only the form's priority into the bound task. */
    method UpdatePriority()
      modifies taskItem
      ensures taskItem != null ==> taskItem.Info() == old(taskItem.Info()).(priority := priority)
    {
      if taskItem == null {
        return;
      }
      taskItem.priority := priority;
    }
  }
}

/** The task form of the current revision (Fini-PM/Models/DetailsEntryModel.swift): it edits an
    existing task or creates a new one in the selected project. */
module DetailsEntry {
  import opened Wrappers
  import opened Workflow
  import opened Entities
  import opened Persistence

  class DetailsEntryModel {
    var projectItem: Project?
    var taskItem: Task?
    var taskIsNil: bool
    var taskItemTitle: string
    var taskItemDesc: string
    var tag: Optional<Tag>
    var status: Status
    var priority: Priority
    var addingDesc: bool

    /** The form fields hold their defaults. */
    predicate IsReset()
      reads this
    {
      taskItemTitle == "" && taskItemDesc == "" && tag == Nil && status == Backlog
      && priority == None && !addingDesc
    }

    constructor ()
      ensures projectItem == null && taskItem == null && !taskIsNil && IsReset()
    {
      projectItem, taskItem := null, null;
      taskIsNil := false;
      taskItemTitle, taskItemDesc := "", "";
      tag := Nil;
      status, priority := Backlog, None;
      addingDesc := false;
    }

    /** `resetState`: clears the form, keeps the task and project it is bound to. */
    method ResetState()
      modifies this
      ensures IsReset()
      ensures projectItem == old(projectItem) && taskItem == old(taskItem) && taskIsNil == old(taskIsNil)
    {
      addingDesc := false;
      taskItemTitle := "";
      taskItemDesc := "";
      status := Backlog;
      priority := None;
      tag := Nil;
    }

    method SetProjectItem(projectItem: Project)
      modifies this`projectItem
      ensures this.projectItem == projectItem
    {
      this.projectItem := projectItem;
    }

    /** `setTaskItem`: binds the form to a task and loads its five editable fields. */
    method SetTaskItem(taskItem: Task)
      modifies this`taskItem, this`taskItemTitle, this`taskItemDesc, this`tag, this`status, this`priority
      ensures this.taskItem == taskItem
      ensures taskItemTitle == taskItem.title && taskItemDesc == taskItem.desc && tag == taskItem.tag
      ensures status == taskItem.status && priority == taskItem.priority
    {
      this.taskItem := taskItem;
      taskItemTitle := taskItem.title;
      taskItemDesc := taskItem.desc;
      tag := taskItem.tag;
      status := taskItem.status;
      priority := taskItem.priority;
    }

    /** `addTaskToProject`: appends to the selected project's list; without a project nothing happens. */
    method AddTaskToProject(task: Task)
      modifies projectItem
      ensures projectItem != null ==> projectItem.ProjectTasks == old(projectItem.ProjectTasks) + [task]
      ensures projectItem != null ==>
        && projectItem.projectName == old(projectItem.projectName)
        && projectItem.projectColor == old(projectItem.projectColor)
        && projectItem.isArchived == old(projectItem.isArchived) && projectItem.id == old(projectItem.id)
    {
      if projectItem == null {
        return;
      }
      projectItem.ProjectTasks := projectItem.ProjectTasks + [task];
    }

    /** `saveTask`: writes the form back into the bound task, or else creates a task in the selected
        project when the title is non-empty; then saves and clears the form. `newId` and `now` stand
        for the `UUID()` and `.now` defaults of `Task.init`. */
    method SaveTask(context: ModelContext, newId: Uuid, now: Timestamp)
      modifies this, taskItem, context
      ensures taskItem == old(taskItem) && projectItem == old(projectItem) && taskIsNil == old(taskIsNil)
      // editing an existing task: exactly its five form fields change
      ensures old(taskItem) != null ==>
        && taskItem.Info() == old(taskItem.Info()).(title := old(taskItemTitle), desc := old(taskItemDesc),
                                                    tag := old(tag), status := old(status), priority := old(priority))
        && context.State() == old(context.State()).(saveCount := old(context.saveCount) + 1)
        && IsReset()
      // nothing to save: no task bound, and no project or an empty title
      ensures old(taskItem) == null && (old(projectItem) == null || old(taskItemTitle) == "") ==>
        && context.State() == old(context.State())
        && taskItemTitle == old(taskItemTitle) && taskItemDesc == old(taskItemDesc) && tag == old(tag)
        && status == old(status) && priority == old(priority) && addingDesc == old(addingDesc)
      // creating: one fresh task carrying the form and the project, inserted and saved
      ensures old(taskItem) == null && old(projectItem) != null && old(taskItemTitle) != "" ==>
        && |context.insertedTasks| == |old(context.insertedTasks)| + 1
        && context.State() == old(context.State()).(insertedTasks := context.insertedTasks,
                                                    saveCount := old(context.saveCount) + 1)
        && context.insertedTasks[..|old(context.insertedTasks)|] == old(context.insertedTasks)
        && fresh(context.insertedTasks[|old(context.insertedTasks)|])
        && context.insertedTasks[|old(context.insertedTasks)|].Info()
           == TaskInfo(newId, old(taskItemTitle), old(taskItemDesc), old(tag), false, old(status),
                       old(priority), now, old(projectItem))
        && IsReset()
    {
      if taskItem != null {
        var existingTask := taskItem;
        existingTask.title := taskItemTitle;
        existingTask.desc := taskItemDesc;
        existingTask.tag := tag;
        existingTask.status := status;
        existingTask.priority := priority;
      } else {
        if projectItem == null || taskItemTitle == "" {
          return;
        }
        var newTask := new Task(newId, taskItemTitle, taskItemDesc, tag, status := status,
                                priority := priority, lastUpdated := now, project := projectItem);
        context.InsertTask(newTask);
      }
      context.Save();
      ResetState();
    }

    /** `setProject`: points the bound task at the selected project when both are set; without a
        project the bound task is left as it was. */
    method SetProject()
      modifies taskItem
      ensures taskItem != null && projectItem != null ==>
        taskItem.Info() == old(taskItem.Info()).(project := projectItem)
      ensures taskItem != null && projectItem == null ==> taskItem.Info() == old(taskItem.Info())
    {
      if taskItem == null || projectItem == null {
        return;
      }
      taskItem.project := projectItem;
    }

    /** `updatePriority`: copies only the form's priority into the bound task. */
    method UpdatePriority()
      modifies taskItem
      ensures taskItem != null ==> taskItem.Info() == old(taskItem.Info()).(priority := priority)
    {
      if taskItem == null {
        return;
      }
      taskItem.priority := priority;
    }

    /** `updateStatus`: copies only the form's status into the bound task. */
    method UpdateStatus()
      modifies taskItem
      ensures taskItem != null ==> taskItem.Info() == old(taskItem.Info()).(status := status)
    {
      if taskItem == null {
        return;
      }
      taskItem.status := status;
    }

    /** `updateTag`: copies only the form's tag into the bound task. */
    method UpdateTag()
      modifies taskItem
      ensures taskItem != null ==> taskItem.Info() == old(taskItem.Info()).(tag := tag)
    {
      if taskItem == null {
        return;
      }
      taskItem.tag := tag;
    }

    /** `deleteTask`: deletes the given task and saves; without a task nothing happens. */
    method DeleteTask(task: Task?, context: ModelContext)
      modifies context
      ensures task == null ==> context.State() == old(context.State())
      ensures task != null ==>
        context.State() == old(context.State()).(deletedTasks := old(context.deletedTasks) + [task],
                                                 saveCount := old(context.saveCount) + 1)
    {
      if task != null {
        context.DeleteTask(task);
        context.Save();
      }
    }
  }
}

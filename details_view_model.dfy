/** The project detail screen's state (Fini-PM/Models/DetailsViewModel.swift). */
module DetailsViewModels {
  import opened Entities

  class DetailsViewModel {
    var projectItem: Project?
    var addingTask: bool
    var isEditing: bool
    var deletingTasks: bool
    var changingColor: bool
    var selectedTask: Task?
    var taskForDel: set<Task>

    /** A fresh model: no project, no selection, every flag down. */
    constructor ()
      ensures projectItem == null && selectedTask == null && taskForDel == {}
      ensures !addingTask && !isEditing && !deletingTasks && !changingColor
    {
      projectItem := null;
      addingTask, isEditing, deletingTasks, changingColor := false, false, false, false;
      selectedTask := null;
      taskForDel := {};
    }

    method SetProject(projectItem: Project)
      modifies this`projectItem
      ensures this.projectItem == projectItem
    {
      this.projectItem := projectItem;
    }

    method SetSelectedTask(taskItem: Task)
      modifies this`selectedTask
      ensures selectedTask == taskItem
    {
      selectedTask := taskItem;
    }

    method ClearSelectedTask()
      modifies this`selectedTask
      ensures selectedTask == null
    {
      selectedTask := null;
    }

    /** `removeTaskFromProject`: with no project set nothing happens; otherwise every task sharing
        the given task's id leaves the project's list and the rest keep their order. */
    method RemoveTaskFromProject(taskItem: Task)
      modifies projectItem
      ensures projectItem != null ==>
        && projectItem.ProjectTasks == WithoutId(old(projectItem.ProjectTasks), taskItem.id)
        && projectItem.id == old(projectItem.id)
        && projectItem.projectName == old(projectItem.projectName)
        && projectItem.projectColor == old(projectItem.projectColor)
        && projectItem.isArchived == old(projectItem.isArchived)
    {
      var p := projectItem;
      if p == null {
        return;
      }
      p.RemoveTaskFromProject(taskItem);
    }
  }
}

/** The project detail screen's state in the older revision (Models/DetailsViewModel.swift). */
module LegacyDetailsViewModels {
  import opened Entities

  class DetailsViewModel {
    var projectItem: Project?

    constructor ()
      ensures projectItem == null
    {
      projectItem := null;
    }

    method SetProject(projectItem: Project)
      modifies this`projectItem
      ensures this.projectItem == projectItem
    {
      this.projectItem := projectItem;
    }

    /** `removeTaskFromProject`: as in the later revision, a no-op without a project. */
    method RemoveTaskFromProject(taskItem: Task)
      modifies projectItem
      ensures projectItem != null ==>
        && projectItem.ProjectTasks == WithoutId(old(projectItem.ProjectTasks), taskItem.id)
        && projectItem.id == old(projectItem.id)
        && projectItem.projectName == old(projectItem.projectName)
        && projectItem.projectColor == old(projectItem.projectColor)
        && projectItem.isArchived == old(projectItem.isArchived)
    {
      var p := projectItem;
      if p == null {
        return;
      }
      p.RemoveTaskFromProject(taskItem);
    }
  }
}

/** SwiftData's `ModelContext`, reduced to what the view models ask of it: a journal of the
    objects inserted and deleted and of the `save()` calls made. */
module Persistence {
  import opened Entities

  datatype Journal = Journal(
    insertedTasks: seq<Task>,
    insertedProjects: seq<Project>,
    insertedTags: seq<Tag>,
    deletedTasks: seq<Task>,
    deletedTags: seq<Tag>,
    saveCount: nat)

  class ModelContext {
    var insertedTasks: seq<Task>
    var insertedProjects: seq<Project>
    var insertedTags: seq<Tag>
    var deletedTasks: seq<Task>
    var deletedTags: seq<Tag>
    var saveCount: nat

    constructor ()
      ensures State() == Journal([], [], [], [], [], 0)
    {
      insertedTasks, insertedProjects, insertedTags := [], [], [];
      deletedTasks, deletedTags := [], [];
      saveCount := 0;
    }

    function State(): Journal
      reads this
    {
      Journal(insertedTasks, insertedProjects, insertedTags, deletedTasks, deletedTags, saveCount)
    }

    method InsertTask(t: Task)
      modifies this
      ensures State() == old(State()).(insertedTasks := old(insertedTasks) + [t])
    {
      insertedTasks := insertedTasks + [t];
    }

    method InsertProject(p: Project)
      modifies this
      ensures State() == old(State()).(insertedProjects := old(insertedProjects) + [p])
    {
      insertedProjects := insertedProjects + [p];
    }

    method InsertTag(t: Tag)
      modifies this
      ensures State() == old(State()).(insertedTags := old(insertedTags) + [t])
    {
      insertedTags := insertedTags + [t];
    }

    method DeleteTask(t: Task)
      modifies this
      ensures State() == old(State()).(deletedTasks := old(deletedTasks) + [t])
    {
      deletedTasks := deletedTasks + [t];
    }

    method DeleteTag(t: Tag)
      modifies this
      ensures State() == old(State()).(deletedTags := old(deletedTags) + [t])
    {
      deletedTags := deletedTags + [t];
    }

    /** `save()`; a failing save is not modelled (its callers only print the error or discard it). */
    method Save()
      modifies this
      ensures State() == old(State()).(saveCount := old(saveCount) + 1)
    {
      saveCount := saveCount + 1;
    }
  }
}

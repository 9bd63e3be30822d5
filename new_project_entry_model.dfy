/** The new-project form (Fini-PM/Models/NewProjectEntryModel.swift). */
module NewProjectEntry {
  import opened Entities
  import opened Persistence
  import opened Colors

  class NewProjectEntryModel {
    var name: string
    var color: Rgb

    constructor ()
      ensures name == "" && color == DefaultColor
    {
      name := "";
      color := DefaultColor;
    }

    /** `saveProject`: with a non-empty name, builds a project from the name and the colour's hex
        string, clears the form, then inserts the project (without calling `save()`). */
    method SaveProject(modelContext: ModelContext, newId: Uuid)
      modifies this, modelContext
      ensures old(name) == "" ==>
        name == old(name) && color == old(color) && modelContext.State() == old(modelContext.State())
      ensures old(name) != "" ==>
        && name == "" && color == DefaultColor
        && |modelContext.insertedProjects| == |old(modelContext.insertedProjects)| + 1
        && modelContext.insertedProjects[..|old(modelContext.insertedProjects)|] == old(modelContext.insertedProjects)
        && modelContext.State() == old(modelContext.State()).(insertedProjects := modelContext.insertedProjects)
        && var p := modelContext.insertedProjects[|old(modelContext.insertedProjects)|];
           && fresh(p) && p.id == newId && p.projectName == old(name) && p.projectColor == FormatHex(old(color))
           && p.ProjectTasks == [] && !p.isArchived
    {
      if name == "" {
        return;
      }
      var newProject := new Project(newId, name, FormatHex(color));
      ResetState();
      modelContext.InsertProject(newProject);
    }

    /** `changeColor`: only the colour changes. */
    method ChangeColor(color: Rgb)
      modifies this`color
      ensures this.color == color
    {
      this.color := color;
    }

    method ResetState()
      modifies this
      ensures name == "" && color == DefaultColor
    {
      name := "";
      color := DefaultColor;
    }
  }
}

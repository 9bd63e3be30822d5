/** The quick task form (Fini-PM/Models/TaskEntryModel.swift) and the test that exercises it
    (Tests/TaskEntryModelTests.swift). */
module TaskEntry {
  import opened Wrappers
  import opened Workflow
  import opened Entities

  /** The five published form fields. */
  datatype Fields = Fields(title: string, description: string, tag: Optional<Tag>, status: Status, priority: Priority)

  /** What `resetState` leaves and what a new model starts with. */
  const ResetFields: Fields := Fields("", "", Nil, Backlog, None)

  /** The guard every other save in the application uses: a non-empty title. */
  predicate SaveableTitle(title: string)
  {
    title != ""
  }

  class TaskEntryModel {
    var title: string
    var description: string
    var tag: Optional<Tag>
    var status: Status
    var priority: Priority

    function State(): Fields
      reads this
    {
      Fields(title, description, tag, status, priority)
    }

    constructor ()
      ensures State() == ResetFields
    {
      title, description := "", "";
      tag := Nil;
      status, priority := Backlog, None;
    }

    /** `resetState`: every field back to its initial value, whatever it was; so a second reset changes nothing. */
    method ResetState()
      modifies this
      ensures State() == ResetFields
      ensures old(State()) == ResetFields ==> State() == old(State())
    {
      title := "";
      description := "";
      tag := Nil;
      status := Backlog;
      priority := None;
    }

    /** `isSaveable()` as written: true exactly when the title is EMPTY. */
    function IsSaveable(): (b: bool)
      reads this
      ensures b <==> !SaveableTitle(title)
    {
      title == ""
    }

    /** `isSaveable()` as evidently intended: true exactly when there is a title to save. */
    function IsSaveableIntended(): (b: bool)
      reads this
      ensures b <==> SaveableTitle(title)
      ensures b <==> !IsSaveable()
    {
      title != ""
    }

    function GetPriorityColor(): NamedColor
      reads this
    {
      PriorityColor(priority)
    }

    function GetStatusImage(): string
      reads this
    {
      StatusImage(status)
    }
  }

  /** The form's status symbol identifies its status: four statuses, four distinct names. */
  lemma GetStatusImageInjective(m: TaskEntryModel, n: TaskEntryModel)
    ensures m.GetStatusImage() == n.GetStatusImage() <==> m.status == n.status
  {
    StatusImageInjective(m.status, n.status);
  }

  /** The form's priority colour identifies its priority. */
  lemma GetPriorityColorInjective(m: TaskEntryModel, n: TaskEntryModel)
    ensures m.GetPriorityColor() == n.GetPriorityColor() <==> m.priority == n.priority
  {
    PriorityColorTable();
  }

  /** The as-written `isSaveable` accepts a form whose title is empty and rejects one with a title. */
  lemma IsSaveableInverted(m: TaskEntryModel)
    ensures m.title == "" ==> m.IsSaveable() && !SaveableTitle(m.title)
    ensures m.title != "" ==> !m.IsSaveable() && SaveableTitle(m.title)
  {
  }

  /** `testResetState`: a filled-in form reads back the defaults after `resetState()`. */
  method TestResetState() returns (viewModelTest: TaskEntryModel)
    ensures fresh(viewModelTest)
    ensures viewModelTest.title == "" && viewModelTest.description == ""
    ensures viewModelTest.status == Backlog && viewModelTest.priority == None
  {
    viewModelTest := new TaskEntryModel();
    viewModelTest.title := "Testing title";
    viewModelTest.description := "Testing desc";
    viewModelTest.status := Done;
    viewModelTest.priority := Medium;
    viewModelTest.ResetState();
    assert viewModelTest.title == "" && viewModelTest.description == "";
    assert viewModelTest.status == Backlog && viewModelTest.priority == None;
  }
}

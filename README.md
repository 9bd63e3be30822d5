# Fini — a verified model of the task manager's logic

Fini is a SwiftUI project manager. Projects hold tasks. A task moves through a four-stage
workflow (Backlog, Doing, Review, Done) and carries a priority and an optional tag. This
project models the parts of the app that compute or change state, in Dafny, and proves what
they promise:

- **Task workflow.** `Task.updateStatus` exists in two revisions with different transition
  tables: `Workflow.NextStatus` and `Workflow.LegacyNextStatus`. The lookups from the enums to
  colours and symbol names are also modelled.
- **Project aggregation.** The filters and counts of `Project`, `progressValue`, and in-place
  removal by id. All of them are built on one `Entities.Filter`, which models Swift's
  `filter` over task references.
- **View models.** The task forms, tag pickers, project form and detail-screen models of both
  revisions are Dafny classes with the Swift fields. Their methods carry `modifies` frames and
  state the whole new state.
- **Persistence.** SwiftData's `ModelContext` is a journal (`Persistence.ModelContext`) that
  records inserted and deleted objects and the number of saves.
- **View handlers.** These are the status-advance handlers and the column filters inside the
  views:
  - the detail screen's status icon;
  - the task card's control button;
  - the home screen's status columns, where Done shows today only;
  - the older cross-project column, which removes duplicates.
- **Colours and appearance.** The hex colour parser and formatter work at the byte level, so
  formatting a colour and parsing it back is the identity. The `Appearance` enum is also
  modelled.

Things the code reads from outside are passed in as parameters:

- the fresh `UUID()` of a new entity (`newId`);
- the clock `.now` (`now`);
- `Calendar.current.isDateInToday` (`isToday: Timestamp -> bool`).

Both revisions of `Task` share one class, `Entities.Task`:

- the current initializer is the anonymous constructor;
- the older one is `Task.Legacy`, whose `project` is optional and which has no `lastUpdated`;
- the two `updateStatus` revisions are `UpdateStatus` and `LegacyUpdateStatus`.

The code has three details worth knowing about:

- Swift's `Int(_:radix: 16)` accepts a leading `+` or `-`. So a six-character string such as
  `-00001` passes the length guard of `Color(hex:)` and yields white. The model keeps this
  behaviour (`Colors.ParseInt16`, `Colors.SignedStringPassesGuard`).
- The older `saveTask` force-unwraps `projectItem` once the title is non-empty. The model
  turns that crash into a precondition: `LegacyDetailsEntry.DetailsEntryModel.SaveTask`
  requires a project whenever the title is non-empty.
- `TaskEntryModel.isSaveable()` is inverted. See Findings.

## Model

| member | source | states |
|---|---|---|
| Workflow.Rank | Fini-PM/SwiftData/Task.swift:104-106 | Each status has a position below 4, and `Status.allCases` at that position is the status itself. |
| Workflow.NextStatus | Fini-PM/SwiftData/Task.swift:89-100 | The current transition never yields Backlog. It moves every status except Done one stage forward; Done falls back one stage, to Review. |
| Workflow.LegacyNextStatus | SwiftData/Task.swift:87-98 | The older transition never yields Backlog: Backlog goes to Doing, Doing jumps straight to Done, Done falls back to Review, and Review is its only fixed point. |
| Workflow.AdvanceNeverBacklog | Fini-PM/SwiftData/Task.swift:89-100 | After one or more `updateStatus` calls a task is never in Backlog. |
| Workflow.AdvanceFromDone | Fini-PM/SwiftData/Task.swift:95-98 | From Done, the status after n calls is Done when n is even and Review when n is odd. |
| Workflow.BacklogReachesDoneInThree | Fini-PM/SwiftData/Task.swift:91-96 | From Backlog, three calls reach Done and fewer do not. |
| Workflow.AdvanceReachesDone | Fini-PM/SwiftData/Task.swift:89-100 | From any status, 3 − position calls reach Done. |
| Workflow.LegacyAdvanceReachesReview | SwiftData/Task.swift:88-97 | Under the older table, any three or more calls end at Review from every status. |
| Workflow.RevisionsDiffer | SwiftData/Task.swift:87-98 | The two tables agree exactly on Backlog and Done. |
| Workflow.PriorityColorTable | SwiftData/Task.swift:47-58 | None is gray, Low green, Medium yellow and High red, and no two priorities share a colour. |
| Workflow.PriorityImageInjective | Fini-PM/SwiftData/Task.swift:63-74 | Two priorities show the same symbol exactly when they are equal. |
| Workflow.StatusImageInjective | Fini-PM/SwiftData/Task.swift:76-87 | Two statuses show the same symbol exactly when they are equal. |
| Entities.Task.constructor | Fini-PM/SwiftData/Task.swift:16-36 | A new task stores the given fields. When omitted, desc is "", tag is nil, isCompleted is false, status is Backlog and priority is None. |
| Entities.Task.Legacy | SwiftData/Task.swift:15-33 | The older initializer has the same defaults, and its project defaults to nil. |
| Entities.Task.UpdateStatus | Fini-PM/SwiftData/Task.swift:89-100 | The status becomes the current table's successor, and no other field of the task changes. |
| Entities.Task.LegacyUpdateStatus | SwiftData/Task.swift:87-98 | The status becomes the older table's successor, and no other field changes. |
| Entities.Filter | Fini-PM/SwiftData/Project.swift:46-64 | The result is never longer than the input, and every task in it comes from the input and passes the predicate. |
| Entities.FilterSubseq | Fini-PM/SwiftData/Project.swift:46-64 | A filter's result keeps the input's order (it is a subsequence). |
| Entities.FilterMultiplicity | Fini-PM/SwiftData/Project.swift:46-64 | A filter keeps each task passing the predicate as often as the input has it, and drops every other task. |
| Entities.FilterMembership | Fini-PM/SwiftData/Project.swift:46-64 | A task is in the result exactly when it is in the input and passes the predicate. |
| Entities.WithoutId | Fini-PM/SwiftData/Project.swift:66-68 | What `removeAll(where: id ==)` leaves contains only input tasks, and none of them has the removed id. |
| Entities.WithoutIdKeepsOthers | Fini-PM/SwiftData/Project.swift:66-68 | Removal by id keeps the original order and keeps each task with another id as often as before. No task with the id survives. |
| Entities.Ratio | Fini-PM/SwiftData/Project.swift:39-44 | The ratio is 0 for a zero total, otherwise exactly done/total, and always lies in [0, 1]. |
| Entities.Project.constructor | Fini-PM/SwiftData/Project.swift:12-24 | A new project stores the given fields. By default its task list is empty and it is not archived. |
| Entities.Project.CompletedTaskCount | Fini-PM/SwiftData/Project.swift:46-48 | The completed count is at most the number of tasks. |
| Entities.Project.UncompletedTaskCount | Fini-PM/SwiftData/Project.swift:50-52 | The uncompleted count is at most the number of tasks. |
| Entities.Project.StatusTaskCount | Fini-PM/SwiftData/Project.swift:54-58 | Each status bucket count is at most the number of tasks. |
| Entities.Project.PriorityTaskCount | Fini-PM/SwiftData/Project.swift:60-64 | Each priority bucket count is at most the number of tasks. |
| Entities.Project.ProgressValue | Fini-PM/SwiftData/Project.swift:39-44 | Progress is 0 for an empty project and otherwise equals completed / count, in [0, 1]. |
| Entities.Project.RemoveTaskFromProject | Fini-PM/SwiftData/Project.swift:66-68 | The task list becomes the old list without the target's id. No other field changes. |
| ProjectStats.FilterComplement | Fini-PM/SwiftData/Project.swift:46-52 | A filter and its negation together have exactly as many tasks as the list. |
| ProjectStats.FilterMonotone | Fini-PM/SwiftData/Project.swift:54-64 | A filter whose predicate implies another's keeps no more tasks. |
| ProjectStats.FilterCount | Fini-PM/SwiftData/Project.swift:46-64 | A filter's size is the head's contribution plus the size of the filtered tail. |
| ProjectStats.CountsPartition | Fini-PM/SwiftData/Project.swift:46-52 | The completed count plus the uncompleted count equals the number of tasks. |
| ProjectStats.StatusCountExcludesCompleted | Fini-PM/SwiftData/Project.swift:54-58 | No completed task is in a status bucket, so each status count is at most the uncompleted count. |
| ProjectStats.PriorityCountExcludesCompleted | Fini-PM/SwiftData/Project.swift:60-64 | No completed task is in a priority bucket, so each priority count is at most the uncompleted count. |
| ProjectStats.PriorityBucketsSum | Fini-PM/SwiftData/Project.swift:60-64 | Over any list, the four priority buckets add up to the uncompleted tasks. |
| ProjectStats.StatusBucketsSum | Fini-PM/SwiftData/Project.swift:54-58 | Over any list, the four status buckets add up to the uncompleted tasks. |
| ProjectStats.PriorityCountsSum | Fini-PM/SwiftData/Project.swift:60-64 | The four priority counts of a project sum to its uncompleted count. |
| ProjectStats.StatusCountsSum | Fini-PM/SwiftData/Project.swift:54-58 | The four status counts of a project sum to its uncompleted count. |
| ProjectStats.ProgressFullIffAllCompleted | Fini-PM/SwiftData/Project.swift:39-52 | A non-empty project's progress is 1 exactly when it has no uncompleted task. |
| Sequences.ElementsBound | Views/ProgressCardView.swift:14-19 | Collapsing a list to its set never makes it larger. |
| Sequences.SetToSeq | Views/ProgressCardView.swift:19 | `Array(set)` lists each element of the set exactly once, in some order. |
| Persistence.ModelContext.constructor | Fini-PM/Models/DetailsEntryModel.swift:52 | The `modelContext` the environment hands to `saveTask` and the other operations is, in this model, a journal that starts empty with zero saves. |
| Persistence.ModelContext.InsertTask | Fini-PM/Models/DetailsEntryModel.swift:62 | `insert` of a task appends it to the task journal, and nothing else changes. |
| Persistence.ModelContext.InsertProject | Fini-PM/Models/NewProjectEntryModel.swift:24 | `insert` of a project appends it to the project journal, and nothing else changes. |
| Persistence.ModelContext.InsertTag | Fini-PM/Models/TagPickerModel.swift:31 | `insert` of a tag appends it to the tag journal, and nothing else changes. |
| Persistence.ModelContext.DeleteTask | Fini-PM/Models/DetailsEntryModel.swift:104 | `delete` of a task appends it to the deleted tasks, and nothing else changes. |
| Persistence.ModelContext.DeleteTag | Fini-PM/Models/TagPickerModel.swift:51 | `delete` of a tag appends it to the deleted tags, and nothing else changes. |
| Persistence.ModelContext.Save | Fini-PM/Models/DetailsEntryModel.swift:65 | `save` increments the save count, and nothing else changes. |
| Colors.DigitsValue | Misc/Colors.swift:46 | A run of characters has a base-16 value exactly when every character is a hex digit. |
| Colors.ParseInt16 | Misc/Colors.swift:46 | `Int(_:radix: 16)` rejects the empty string. For an unsigned string it succeeds exactly when every character is a hex digit. |
| Colors.StripHash | Misc/Colors.swift:44 | A string that starts with '#' is '#' followed by the result; any other string comes back unchanged. |
| Colors.Components | Misc/Colors.swift:51-53 | For a 24-bit value, red · 2^16 + green · 2^8 + blue gives back the value. |
| Colors.ColorFromHex | Misc/Colors.swift:43-56 | The result is black when the remainder after '#' is not six characters or does not parse. |
| Colors.HexDigit | Misc/Colors.swift:79 | The digit `%X` prints reads back as its own value; it is upper case (never 'a' to 'f') and never '#', '+' or '-'. |
| Colors.Hex2 | Misc/Colors.swift:79 | `%02X` of a byte is exactly two characters. |
| Colors.FormatHex | Misc/Colors.swift:79 | The formatted string has seven characters and begins with '#'. |
| Colors.DigitsValueAppendByte | Misc/Colors.swift:79 | Appending two formatted digits multiplies the value by 256 and adds the byte. |
| Colors.DigitsOfFormat | Misc/Colors.swift:79 | The six digits of a formatted colour read back as its 24-bit value. |
| Colors.ComponentsOfValue | Misc/Colors.swift:51-53 | Splitting a 24-bit value into bytes gives back the components it was built from. |
| Colors.FormatThenParse | Misc/Colors.swift:44-53 | Formatting a colour as "#RRGGBB" and parsing it gives back the same three bytes. |
| Colors.HashIsOptional | Misc/Colors.swift:44 | A string parses to the same colour with or without a leading '#'. |
| Colors.SixDigitsParse | Misc/Colors.swift:44-53 | Six hex digits parse to their value split into bytes, with or without '#'. |
| Colors.SignedStringPassesGuard | Misc/Colors.swift:46-53 | The signed string "#-00001" passes the guard and yields (255, 255, 255). |
| Colors.PaletteFacts | Misc/Colors.swift:85-100 | `allList` has 14 entries, and its first, the reset colour, is #CA5310. |
| Appearances.Appearance.Id | Misc/ColorScheme.swift:8 | `id` reads back to its own case. |
| Appearances.Appearance.ColorScheme | Misc/ColorScheme.swift:10-19 | Only `.system` maps to nil. |
| Appearances.FromRawValue | Misc/ColorScheme.swift:3-6 | A successful raw-value lookup returns a case with that raw value. |
| Appearances.RawValueRoundTrip | Misc/ColorScheme.swift:3-8 | Raw values read back to their case and are distinct, and `id` equals the raw value. |
| Appearances.SchemeTable | Misc/ColorScheme.swift:10-19 | system maps to nil, light to light and dark to dark. |
| Appearances.AllCasesComplete | Misc/ColorScheme.swift:3-6 | `allCases` lists the three cases once each. |
| DetailsEntry.DetailsEntryModel.constructor | Fini-PM/Models/DetailsEntryModel.swift:6-19 | A new form has no task or project and holds the default field values. |
| DetailsEntry.DetailsEntryModel.ResetState | Fini-PM/Models/DetailsEntryModel.swift:21-28 | The form fields return to their defaults, and the bound task and project stay. |
| DetailsEntry.DetailsEntryModel.SetProjectItem | Fini-PM/Models/DetailsEntryModel.swift:30-32 | Only `projectItem` changes, to the given project. |
| DetailsEntry.DetailsEntryModel.SetTaskItem | Fini-PM/Models/DetailsEntryModel.swift:34-41 | The form binds the task and copies its title, desc, tag, status and priority. |
| DetailsEntry.DetailsEntryModel.AddTaskToProject | Fini-PM/Models/DetailsEntryModel.swift:43-50 | With a project, the task is appended to its list and nothing else of the project changes. Without one, nothing happens. |
| DetailsEntry.DetailsEntryModel.SaveTask | Fini-PM/Models/DetailsEntryModel.swift:52-67 | There are three outcomes. A bound task gets exactly the five form fields, one save and a reset. With no task and no project or an empty title, nothing changes. Otherwise one fresh task with the form's fields, the project and the clock is inserted, then saved, then the form resets. |
| DetailsEntry.DetailsEntryModel.SetProject | Fini-PM/Models/DetailsEntryModel.swift:69-76 | When both are set, only the task's project changes. When a task is bound but no project is set, the task is left unchanged. |
| DetailsEntry.DetailsEntryModel.UpdatePriority | Fini-PM/Models/DetailsEntryModel.swift:78-84 | With a bound task, only its priority changes to the form's. |
| DetailsEntry.DetailsEntryModel.UpdateStatus | Fini-PM/Models/DetailsEntryModel.swift:86-92 | With a bound task, only its status changes to the form's. |
| DetailsEntry.DetailsEntryModel.UpdateTag | Fini-PM/Models/DetailsEntryModel.swift:94-100 | With a bound task, only its tag changes to the form's. |
| DetailsEntry.DetailsEntryModel.DeleteTask | Fini-PM/Models/DetailsEntryModel.swift:102-112 | Passing nil deletes nothing. Passing a task deletes exactly that task and saves once. |
| LegacyDetailsEntry.DetailsEntryModel.constructor | Models/DetailsEntryModel.swift:5-18 | A new form has no task or project and holds the default field values. |
| LegacyDetailsEntry.DetailsEntryModel.ResetState | Models/DetailsEntryModel.swift:23-30 | The form fields return to their defaults. |
| LegacyDetailsEntry.DetailsEntryModel.SetProjectItem | Models/DetailsEntryModel.swift:32-34 | Only `projectItem` changes. |
| LegacyDetailsEntry.DetailsEntryModel.SetTaskItem | Models/DetailsEntryModel.swift:36-44 | The form binds the task and copies its five editable fields. |
| LegacyDetailsEntry.DetailsEntryModel.AddTaskToProject | Models/DetailsEntryModel.swift:46-53 | With a project, the task is appended. Without one, nothing happens. |
| LegacyDetailsEntry.DetailsEntryModel.SaveTask | Models/DetailsEntryModel.swift:56-64 | An empty title changes nothing. Otherwise one fresh task with the form's fields and the project is inserted, nothing is saved, and the form resets. |
| LegacyDetailsEntry.DetailsEntryModel.SetProject | Models/DetailsEntryModel.swift:66-73 | When both are set, only the task's project changes. When a task is bound but no project is set, the task is left unchanged. |
| LegacyDetailsEntry.DetailsEntryModel.UpdatePriority | Models/DetailsEntryModel.swift:75-81 | With a bound task, only its priority changes. |
| TagPicker.Toggled | Fini-PM/Models/TagPickerModel.swift:57-64 | Tapping a tag flips its membership, and every other tag keeps its membership. |
| TagPicker.ToggleTwice | Fini-PM/Models/TagPickerModel.swift:57-64 | Tapping the same tag twice restores the selection. |
| TagPicker.TagPickerModel.constructor | Fini-PM/Models/TagPickerModel.swift:14-22 | The picker starts with an empty name, the first palette colour, no flags set and no selection. |
| TagPicker.TagPickerModel.SaveTag | Fini-PM/Models/TagPickerModel.swift:24-39 | An empty name changes nothing. Otherwise one tag with the typed name is inserted, the form resets and the context saves once. |
| TagPicker.TagPickerModel.ResetState | Fini-PM/Models/TagPickerModel.swift:41-47 | The name, colour, `isEditing` and `addingTag` return to their defaults, and nothing else changes. |
| TagPicker.TagPickerModel.DeleteFromSelected | Fini-PM/Models/TagPickerModel.swift:49-55 | Every selected tag is deleted exactly once, and then the selection is empty. |
| TagPicker.TagPickerModel.ToggleTag | Fini-PM/Models/TagPickerModel.swift:57-64 | The selection becomes the toggled selection. |
| LegacyTagPicker.TagPickerModel.constructor | Models/TagPickerModel.swift:13-19 | The picker starts with an empty name, the first palette colour and no flags. |
| LegacyTagPicker.TagPickerModel.SaveTag | Models/TagPickerModel.swift:23-32 | An empty name changes nothing. Otherwise the tag carries the name from before the reset, the form resets and one tag is inserted without a save. |
| LegacyTagPicker.TagPickerModel.ResetState | Models/TagPickerModel.swift:34-41 | The name, colour and all three flags, including `focusedTagField`, are reset. |
| LegacyTagPicker.TagPickerModel.RemoveTag | Models/TagPickerModel.swift:43-45 | Exactly the given tag is deleted. |
| TaskEntry.TaskEntryModel.constructor | Fini-PM/Models/TaskEntryModel.swift:6-12 | The initial state is the reset state. |
| TaskEntry.TaskEntryModel.ResetState | Fini-PM/Models/TaskEntryModel.swift:16-22 | All five fields return to their defaults, and a second reset changes nothing. |
| TaskEntry.TaskEntryModel.IsSaveable | Fini-PM/Models/TaskEntryModel.swift:24-26 | As written, saveable exactly when the title is empty. |
| TaskEntry.TaskEntryModel.IsSaveableIntended | Fini-PM/Models/TaskEntryModel.swift:24-26 | Saveable exactly when the title is non-empty, which is the negation of the as-written check. |
| TaskEntry.GetStatusImageInjective | Fini-PM/Models/TaskEntryModel.swift:41-52 | Two forms show the same status symbol exactly when their statuses are equal. |
| TaskEntry.GetPriorityColorInjective | Fini-PM/Models/TaskEntryModel.swift:28-39 | Two forms show the same priority colour exactly when their priorities are equal. |
| TaskEntry.IsSaveableInverted | Fini-PM/Models/TaskEntryModel.swift:24-26 | An empty title counts as saveable, and a real title does not. |
| TaskEntry.TestResetState | Tests/TaskEntryModelTests.swift:11-23 | After the test's edits and `resetState()`, the four asserted fields hold their defaults. |
| NewProjectEntry.NewProjectEntryModel.constructor | Fini-PM/Models/NewProjectEntryModel.swift:13-14 | The form starts with an empty name and the first palette colour. |
| NewProjectEntry.NewProjectEntryModel.SaveProject | Fini-PM/Models/NewProjectEntryModel.swift:16-25 | An empty name changes nothing. Otherwise one fresh project with the typed name, the colour's hex string, no tasks and not archived is inserted, and the form resets. |
| NewProjectEntry.NewProjectEntryModel.ChangeColor | Fini-PM/Models/NewProjectEntryModel.swift:27-29 | Only the colour changes. |
| NewProjectEntry.NewProjectEntryModel.ResetState | Fini-PM/Models/NewProjectEntryModel.swift:31-34 | The name becomes empty and the colour becomes the first palette entry. |
| QuickTagEntry.QuickTagEntryModel.constructor | Fini-PM/Models/QuickTagEntryModel.swift:6 | The field starts empty. |
| QuickTagEntry.QuickTagEntryModel.SaveTag | Fini-PM/Models/QuickTagEntryModel.swift:8-17 | An empty name changes nothing. Otherwise one tag with the original name is inserted and the field is cleared. |
| QuickTagEntry.SaveTagTwice | Fini-PM/Models/QuickTagEntryModel.swift:8-17 | Two saves in a row insert at most one tag. |
| DetailsViewModels.DetailsViewModel.constructor | Fini-PM/Models/DetailsViewModel.swift:6-13 | A new model has every flag false, no selected task and nothing marked for deletion. |
| DetailsViewModels.DetailsViewModel.SetProject | Fini-PM/Models/DetailsViewModel.swift:15-17 | Only `projectItem` changes. |
| DetailsViewModels.DetailsViewModel.SetSelectedTask | Fini-PM/Models/DetailsViewModel.swift:19-21 | Only `selectedTask` changes, to the given task. |
| DetailsViewModels.DetailsViewModel.ClearSelectedTask | Fini-PM/Models/DetailsViewModel.swift:23-25 | Only `selectedTask` changes, to nil. |
| DetailsViewModels.DetailsViewModel.RemoveTaskFromProject | Fini-PM/Models/DetailsViewModel.swift:27-36 | Without a project nothing changes. Otherwise the project keeps exactly its tasks with other ids, in order, and its id, name, colour and archived flag stay. |
| LegacyDetailsViewModels.DetailsViewModel.constructor | Models/DetailsViewModel.swift:5 | A new model has no project. |
| LegacyDetailsViewModels.DetailsViewModel.SetProject | Models/DetailsViewModel.swift:7-9 | Only `projectItem` changes. |
| LegacyDetailsViewModels.DetailsViewModel.RemoveTaskFromProject | Models/DetailsViewModel.swift:11-20 | Without a project nothing changes. Otherwise the project keeps exactly its tasks with other ids, in order, and its id, name, colour and archived flag stay. |
| DetailsScreen.CompletedTasks | Fini-PM/Views/ProjectViews/DetailsView/DetailsView.swift:28-30 | The list holds exactly the project's completed tasks, in the project's order. Its size is the completed count. |
| DetailsScreen.TaskListView | Fini-PM/Views/ProjectViews/DetailsView/DetailsView.swift:370-393 | There is one block per status in `allCases` order, and a header appears only over a non-empty block. |
| DetailsScreen.StatusGroupsPartition | Fini-PM/Views/ProjectViews/DetailsView/DetailsView.swift:371-390 | The four status filters together hold each task exactly as often as the list does. |
| DetailsScreen.TaskListPartition | Fini-PM/Views/ProjectViews/DetailsView/DetailsView.swift:371-390 | The blocks' multisets add up to the project's tasks, and so do their sizes. |
| DetailsScreen.TaskListMembership | Fini-PM/Views/ProjectViews/DetailsView/DetailsView.swift:385 | A task appears in the block of its own status and in no other, and every block keeps the project's order. |
| DetailsScreen.HeaderIffStatusPresent | Fini-PM/Views/ProjectViews/DetailsView/DetailsView.swift:373 | A header is shown exactly when some task has that status. |
| DetailsScreen.TapStatusIcon | Fini-PM/Views/ProjectViews/DetailsView/DetailsView.swift:282-294 | The tap advances the status, sets `isCompleted` to status == Done and stamps `lastUpdated` with now. Nothing else changes. |
| DetailsScreen.TapRestoresCompletionRule | Fini-PM/Views/ProjectViews/DetailsView/DetailsView.swift:287-291 | After a tap, isCompleted holds exactly when the status is Done, and the status is never Backlog. Review goes to completed Done, and Done goes to uncompleted Review. |
| TaskCard.TaskCardView.constructor | Fini-PM/Views/TaskCardView.swift:24-33 | The title and description fields copy the task's, and the tag field holds the task's tag when it has one. |
| TaskCard.TaskCardView.TrashButton | Fini-PM/Views/TaskCardView.swift:86-88 | Only the confirmation flag becomes true. |
| TaskCard.TaskCardView.ControlButton | Fini-PM/Views/TaskCardView.swift:95-114 | On Done, only `isCompleted` flips. Otherwise the status advances and `isCompleted` follows status == Done, while `lastUpdated` and the other fields stay. |
| TaskCard.PressFromReview | Fini-PM/Views/TaskCardView.swift:103-111 | Pressing on a Review task yields Done with isCompleted true and leaves `lastUpdated` unchanged. |
| TaskCard.PressDoneTwice | Fini-PM/Views/TaskCardView.swift:95-101 | Pressing twice on a Done task restores it entirely. |
| ProgressCard.ColumnTasks | Fini-PM/Views/ProgressCardView.swift:14-20 | The column is a subsequence of all tasks and holds exactly the tasks with its status. For Done, exactly those updated today. |
| ProgressCard.ShowsEmptyView | Fini-PM/Views/ProgressCardView.swift:22-28 | The placeholder shows exactly when no task qualifies for the column. |
| ProgressCard.HeaderCount | Fini-PM/Views/ProgressCardView.swift:65 | The header count is 0 exactly when the placeholder shows. It is at most the number of tasks, and outside Done it is the number of tasks of that status. |
| ProgressCard.AdvanceButton | Fini-PM/Views/ProgressCardView.swift:94-105 | The button advances the status, syncs `isCompleted` with Done and stamps `lastUpdated`. Nothing else changes. |
| ProgressCard.AdvanceFromReviewIntoDone | Fini-PM/Views/ProgressCardView.swift:14-20 | Advancing a Review task today moves it into the Done column and out of the Review column. |
| LegacyProgressCard.MatchingTasks | Views/ProgressCardView.swift:15-17 | The flattened filter holds exactly the tasks of some project that have the column's status. |
| LegacyProgressCard.ProjectItemSet | Views/ProgressCardView.swift:14-18 | The set holds exactly the tasks of any project with that status. It is no larger than the per-project matches added up. |
| LegacyProgressCard.ProjectItems | Views/ProgressCardView.swift:13-20 | `projectItems` has no duplicates and holds exactly the matching tasks across projects. It has at most as many entries as the per-project matches added up. |
| LegacyProgressCard.ToggleCompletion | Views/ProgressCardView.swift:99-101 | Only `isCompleted` flips, and the status stays. |

## Left out

- Floating point: the `/ 255.0` scaling of `Color(hex:)` and the rounding of the `cgColor` components in `getColorHex` are not modelled. Colours are their three bytes, and `getColorHex` is the `%02X` formatting of those bytes.
- Colors.FormatHex: `getColorHex` returns "" when a colour has no `cgColor` components. Every colour in the model is an RGB triple, so that branch is not modelled.
- `Color: RawRepresentable` (`NSKeyedArchiver` and base64) and `AccentColorManager`'s `@AppStorage` are library calls and global storage.
- SwiftData internals: `@Query`, `fetch` and the store itself. `ModelContext` is a journal of inserts, deletes and saves.
- Persistence.ModelContext.Save: a failing `save()` (the `try?`/`catch` paths) is not modelled; a save always succeeds.
- SwiftData inverse relationships are not modelled: a task inserted with a project is not added to that project's `ProjectTasks` automatically.
- The static helpers `Task.saveTask` and `Project.saveProject`, and `Project.getArchivedProjects`, are not modelled. No modelled operation calls them.
- `UUID()`, `.now` and `Calendar.current.isDateInToday` are passed in as `newId`, `now` and `isToday`.
- LegacyDetailsEntry.DetailsEntryModel.SaveTask: the crash that the force-unwrap of `projectItem` (Models/DetailsEntryModel.swift:61) causes when the title is non-empty and no project is set is not modelled. The method instead requires a project whenever the title is non-empty.
- Entities.Task.Legacy: the older `Task` has no `lastUpdated`. The shared class still has the field, and this constructor leaves it unconstrained.
- String length is counted in Dafny characters; Swift's `count` counts grapheme clusters.
- `selectForDel` and `unselectForDel` have empty bodies, so there is nothing to model.
- Layout, animation, sheets, focus, navigation and the delayed `DispatchQueue` clear are not modelled.
- The heat map views, broken or stub revisions and the other views only draw or re-display values. They are not part of this model.
- LegacyProgressCard.ProjectItems: `Array(Set(...))` has no specified order, so the model is a ghost function that fixes some distinct listing of the set.

## Findings

| source | as written | input that shows it | evidently intended | confidence | as-written member | corrected member |
|---|---|---|---|---|---|---|
| Fini-PM/Models/TaskEntryModel.swift:24-26 | `isSaveable()` returns `title.isEmpty`, so it is true exactly when there is nothing to save | a form with title "" is saveable; a form with title "Testing title" is not | saveable exactly when the title is non-empty, the guard every other save in the app uses | not executed | TaskEntry.IsSaveableInverted | TaskEntry.TaskEntryModel.IsSaveableIntended |

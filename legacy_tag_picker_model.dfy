/** The tag picker of the older revision (Models/TagPickerModel.swift). */
module LegacyTagPicker {
  import opened Entities
  import opened Persistence
  import opened Colors

  class TagPickerModel {
    var addingTag: bool
    var isEditing: bool
    var tagName: string
    var tagColor: Rgb
    var focusedTagField: bool

    constructor ()
      ensures !addingTag && !isEditing && tagName == "" && tagColor == DefaultColor && !focusedTagField
    {
      addingTag, isEditing := false, false;
      tagName := "";
      tagColor := DefaultColor;
      focusedTagField := false;
    }

    /** `saveTag`: the tag is built before the form is cleared, so it carries the typed name;
        this revision inserts without calling `save()`. */
    method SaveTag(context: ModelContext, newId: Uuid)
      modifies this, context
      ensures old(tagName) == "" ==>
        && context.State() == old(context.State())
        && tagName == old(tagName) && tagColor == old(tagColor) && isEditing == old(isEditing)
        && addingTag == old(addingTag) && focusedTagField == old(focusedTagField)
      ensures old(tagName) != "" ==>
        && context.State() == old(context.State()).(insertedTags := old(context.insertedTags) + [Tag(newId, old(tagName))])
        && tagName == "" && tagColor == DefaultColor && !isEditing && !addingTag && !focusedTagField
    {
      if tagName == "" {
        return;
      }
      var newTag := Tag(newId, tagName);
      ResetState();
      context.InsertTag(newTag);
    }

    /** `resetState`: this revision also drops the focus of the name field. */
    method ResetState()
      modifies this
      ensures tagName == "" && tagColor == DefaultColor && !isEditing && !addingTag && !focusedTagField
    {
      tagName := "";
      tagColor := DefaultColor;
      isEditing := false;
      addingTag := false;
      focusedTagField := false;
    }

    /** `removeTag`: deletes exactly the given tag. */
    method RemoveTag(tag: Tag, context: ModelContext)
      modifies context
      ensures context.State() == old(context.State()).(deletedTags := old(context.deletedTags) + [tag])
    {
      context.DeleteTag(tag);
    }
  }
}

/** The tag picker of the current revision (Fini-PM/Models/TagPickerModel.swift): creating tags,
    a multi-selection of tags, and deleting the selection. */
module TagPicker {
  import opened Entities
  import opened Persistence
  import opened Colors

  /** The selection after tapping `t`: membership of `t` flips, nothing else changes. */
  function Toggled(selected: set<Tag>, t: Tag): (r: set<Tag>)
    ensures forall x :: x in r <==> (if x == t then x !in selected else x in selected)
  {
    if t in selected then selected - {t} else selected + {t}
  }

  /** Tapping the same tag twice restores the selection. */
  lemma ToggleTwice(selected: set<Tag>, t: Tag)
    ensures Toggled(Toggled(selected, t), t) == selected
  {
  }

  class TagPickerModel {
    var addingTag: bool
    var isEditing: bool
    var tagName: string
    var tagColor: Rgb
    var focusedTagField: bool
    var selectedTags: set<Tag>

    constructor ()
      ensures !addingTag && !isEditing && tagName == "" && tagColor == DefaultColor
      ensures !focusedTagField && selectedTags == {}
    {
      addingTag, isEditing := false, false;
      tagName := "";
      tagColor := DefaultColor;
      focusedTagField := false;
      selectedTags := {};
    }

    /** `saveTag`: with a non-empty name, inserts a tag of that name, clears the form and saves. */
    method SaveTag(context: ModelContext, newId: Uuid)
      modifies this, context
      ensures old(tagName) == "" ==>
        && context.State() == old(context.State())
        && tagName == old(tagName) && tagColor == old(tagColor)
        && isEditing == old(isEditing) && addingTag == old(addingTag)
      ensures old(tagName) != "" ==>
        && context.State() == old(context.State()).(insertedTags := old(context.insertedTags) + [Tag(newId, old(tagName))],
                                                    saveCount := old(context.saveCount) + 1)
        && tagName == "" && tagColor == DefaultColor && !isEditing && !addingTag
      ensures focusedTagField == old(focusedTagField) && selectedTags == old(selectedTags)
    {
      if tagName == "" {
        return;
      }
      var newTag := Tag(newId, tagName);
      context.InsertTag(newTag);
      ResetState();
      context.Save();
    }

    /** `resetState`: the name, colour and the two mode flags go back to their defaults. */
    method ResetState()
      modifies this`tagName, this`tagColor, this`isEditing, this`addingTag
      ensures tagName == "" && tagColor == DefaultColor && !isEditing && !addingTag
    {
      tagName := "";
      tagColor := DefaultColor;
      isEditing := false;
      addingTag := false;
    }

    /** `deleteFromSelected`: deletes each selected tag once, in the set's (unspecified) order,
        then empties the selection. */
    method DeleteFromSelected(context: ModelContext)
      modifies this`selectedTags, context
      ensures selectedTags == {}
      ensures |context.deletedTags| >= |old(context.deletedTags)|
      ensures context.deletedTags[..|old(context.deletedTags)|] == old(context.deletedTags)
      ensures multiset(context.deletedTags[|old(context.deletedTags)|..]) == multiset(old(selectedTags))
      ensures context.State() == old(context.State()).(deletedTags := context.deletedTags)
    {
      var remaining := selectedTags;
      ghost var deleted: seq<Tag> := [];
      while remaining != {}
        invariant selectedTags == old(selectedTags) && remaining <= selectedTags
        invariant context.deletedTags == old(context.deletedTags) + deleted
        invariant multiset(deleted) + multiset(remaining) == multiset(selectedTags)
        invariant context.State() == old(context.State()).(deletedTags := context.deletedTags)
        decreases remaining
      {
        var tag :| tag in remaining;
        context.DeleteTag(tag);
        deleted := deleted + [tag];
        remaining := remaining - {tag};
      }
      assert context.deletedTags[|old(context.deletedTags)|..] == deleted;
      assert multiset(remaining) == multiset{};
      selectedTags := {};
    }

    /** `toggleTag`. */
    method ToggleTag(tag: Tag)
      modifies this`selectedTags
      ensures selectedTags == Toggled(old(selectedTags), tag)
    {
      if tag in selectedTags {
        selectedTags := selectedTags - {tag};
        return;
      }
      selectedTags := selectedTags + {tag};
    }
  }
}

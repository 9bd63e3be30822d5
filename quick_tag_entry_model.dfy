/** The one-field tag form (Fini-PM/Models/QuickTagEntryModel.swift). */
module QuickTagEntry {
  import opened Entities
  import opened Persistence

  class QuickTagEntryModel {
    var tagName: string

    constructor ()
      ensures tagName == ""
    {
      tagName := "";
    }

    /** `saveTag`: with a non-empty name, inserts a tag of that name and clears the field. */
    method SaveTag(context: ModelContext, newId: Uuid)
      modifies this, context
      ensures old(tagName) == "" ==> tagName == old(tagName) && context.State() == old(context.State())
      ensures old(tagName) != "" ==>
        && tagName == ""
        && context.State() == old(context.State()).(insertedTags := old(context.insertedTags) + [Tag(newId, old(tagName))])
    {
      if tagName == "" {
        return;
      }
      var newTag := Tag(newId, tagName);
      tagName := "";
      context.InsertTag(newTag);
    }
  }

  /** Pressing save twice in a row inserts at most one tag: the first save empties the field. */
  method SaveTagTwice(m: QuickTagEntryModel, context: ModelContext, firstId: Uuid, secondId: Uuid)
    modifies m, context
    ensures m.tagName == ""
    ensures old(m.tagName) != "" ==> context.insertedTags == old(context.insertedTags) + [Tag(firstId, old(m.tagName))]
    ensures old(m.tagName) == "" ==> context.insertedTags == old(context.insertedTags)
  {
    m.SaveTag(context, firstId);
    m.SaveTag(context, secondId);
  }
}

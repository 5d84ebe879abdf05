/** The administrator's notice board: publishing, editing and deleting
    communications, with the dialog's form and the item being edited. */
module CommunicationsManagement {
  import opened Seqs
  import opened AuthTypes
  import opened Ids
  import opened Storage

  /** The author a new communication is signed with. */
  const DefaultAuthor := "Administração"

  /** The dialog's fields. */
  datatype CommunicationForm = CommunicationForm(title: string, content: string, priority: Priority, author: string)

  /** The form `resetForm` restores: empty texts, medium priority, the
      default author. */
  function EmptyForm(): (f: CommunicationForm)
    ensures f.title == "" && f.content == ""
    ensures f.priority == Medium && f.author == DefaultAuthor
  {
    CommunicationForm("", "", Medium, DefaultAuthor)
  }

  /** The form `handleEdit` fills from a communication. */
  function FormOf(c: Communication): (f: CommunicationForm)
    ensures f.title == c.title && f.content == c.content
    ensures f.priority == c.priority && f.author == c.author
  {
    CommunicationForm(c.title, c.content, c.priority, c.author)
  }

  /** The record a new publication hands to `addCommunication`. */
  function PublicationDraft(form: CommunicationForm, date: int): (d: CommunicationDraft)
    ensures d.title == form.title && d.content == form.content
    ensures d.priority == form.priority && d.author == form.author && d.date == date
  {
    CommunicationDraft(form.title, form.content, date, form.author, form.priority)
  }

  /** `{ ...comm, ...formData, date }`: the id kept, the form's fields
      written, the date set. */
  function Edited(c: Communication, form: CommunicationForm, date: int): (r: Communication)
    ensures r.id == c.id && r.date == date && FormOf(r) == form
  {
    Communication(c.id, form.title, form.content, date, form.author, form.priority)
  }

  /** Editing with the form a communication filled and its own date gives it
      back unchanged. */
  lemma EditedWithOwnForm(c: Communication)
    ensures Edited(c, FormOf(c), c.date) == c
  {
  }

  /** The list after submitting an edit of `target`: every item with the
      target's id gets the form's fields and the target's original date. */
  function ApplyEdit(cs: seq<Communication>, target: Communication, form: CommunicationForm): (r: seq<Communication>)
    ensures |r| == |cs|
    ensures forall i :: 0 <= i < |cs| ==> r[i].id == cs[i].id
    ensures forall i :: 0 <= i < |cs| && cs[i].id == target.id ==> r[i] == Edited(cs[i], form, target.date)
    ensures forall i :: 0 <= i < |cs| && cs[i].id != target.id ==> r[i] == cs[i]
  {
    Update(cs, (c: Communication) => c.id == target.id, (c: Communication) => Edited(c, form, target.date))
  }

  /** Submitting the edit dialog without touching it changes nothing, as long
      as the target is the only item with its id. */
  lemma ApplyUnchangedEdit(cs: seq<Communication>, target: Communication)
    requires forall c :: c in cs && c.id == target.id ==> c == target
    ensures ApplyEdit(cs, target, FormOf(target)) == cs
  {
    var r := ApplyEdit(cs, target, FormOf(target));
    forall i | 0 <= i < |cs|
      ensures r[i] == cs[i]
    {
      if cs[i].id == target.id {
        assert cs[i] in cs;
        EditedWithOwnForm(target);
      }
    }
  }

  /** A second edit of the same target replaces the first one entirely. */
  lemma ApplyEditTwice(cs: seq<Communication>, target: Communication, first: CommunicationForm, second: CommunicationForm)
    ensures ApplyEdit(ApplyEdit(cs, target, first), target, second) == ApplyEdit(cs, target, second)
  {
    UpdateOverride(cs, (c: Communication) => c.id == target.id, (c: Communication) => Edited(c, first, target.date),
      (c: Communication) => Edited(c, second, target.date));
  }

  /** The list after `handleDelete(id)`: the items with another id, in order. */
  function RemoveById(cs: seq<Communication>, id: string): (r: seq<Communication>)
    ensures |r| <= |cs|
    ensures forall c :: c in r <==> c in cs && c.id != id
  {
    Filter(cs, (c: Communication) => c.id != id)
  }

  /** Deleting keeps the order of the remaining items: it distributes over
      any split of the board. */
  lemma RemoveByIdAppend(a: seq<Communication>, b: seq<Communication>, id: string)
    ensures RemoveById(a + b, id) == RemoveById(a, id) + RemoveById(b, id)
  {
    FilterAppend(a, b, (c: Communication) => c.id != id);
  }

  /** Deleting keeps every other item as often as it occurred, and no item
      with the id. */
  lemma RemoveByIdMultiset(cs: seq<Communication>, id: string)
    ensures forall c :: multiset(RemoveById(cs, id))[c] == if c.id != id then multiset(cs)[c] else 0
  {
    FilterMultiset(cs, (c: Communication) => c.id != id);
  }

  /** Deleting an id nobody has changes nothing. */
  lemma RemoveUnknownId(cs: seq<Communication>, id: string)
    requires forall c :: c in cs ==> c.id != id
    ensures RemoveById(cs, id) == cs
  {
    FilterKeepsAll(cs, (c: Communication) => c.id != id);
  }

  /** Deleting twice is deleting once. */
  lemma RemoveIdempotent(cs: seq<Communication>, id: string)
    ensures RemoveById(RemoveById(cs, id), id) == RemoveById(cs, id)
  {
    FilterFilter(cs, (c: Communication) => c.id != id, (c: Communication) => c.id != id, (c: Communication) => c.id != id);
  }

  /** Deleting an item that is on the board shortens the board. */
  lemma RemoveShortens(cs: seq<Communication>, i: nat)
    requires i < |cs|
    ensures |RemoveById(cs, cs[i].id)| < |cs|
  {
    FilterLengthMonotone(cs, (c: Communication) => true, (c: Communication) => c.id != cs[i].id);
    FilterKeepsAll(cs, (c: Communication) => true);
    assert cs[i] in cs;
  }

  /** `CommunicationsManagement`: the component's copy of the list, the item
      being edited, if any, and the dialog's form. */
  class CommunicationsManagement {
    var communications: seq<Communication>
    var editing: Option<Communication>
    var form: CommunicationForm
    const store: Store

    /** Mounting reads the stored list, with nothing being edited. */
    constructor (store: Store)
      ensures this.store == store
      ensures communications == Contents(store.communications)
      ensures editing == None && form == EmptyForm()
    {
      this.store := store;
      var all := store.GetCommunications();
      communications := all;
      editing := None;
      form := EmptyForm();
    }

    /** `resetForm`, also run by the "new communication" button. */
    method ResetForm()
      modifies this`form, this`editing
      ensures form == EmptyForm() && editing == None
    {
      form := EmptyForm();
      editing := None;
    }

    /** `handleEdit`: the dialog opens on the communication's own fields. */
    method HandleEdit(c: Communication)
      modifies this`form, this`editing
      ensures editing == Some(c) && form == FormOf(c)
    {
      editing := Some(c);
      form := FormOf(c);
    }

    /** `handleSubmit`: with an item being edited, applies the form to the
        component's copy and writes it back; otherwise publishes a new item
        at the top of the stored list and re-reads it. Either way the form is
        reset. */
    method HandleSubmit(date: int, now: nat)
      modifies this`communications, this`editing, this`form, store`communications
      ensures old(editing).Some? ==>
        && communications == ApplyEdit(old(communications), old(editing).value, old(form))
        && store.communications == Stored(communications)
      ensures old(editing).None? ==>
        && communications == [PublicationDraft(old(form), date).WithId(RecordId(CommunicationKind, now))]
                             + Contents(old(store.communications))
        && store.communications == Stored(communications)
      ensures form == EmptyForm() && editing == None
    {
      if editing.Some? {
        var updated := ApplyEdit(communications, editing.value, form);
        store.SaveCommunications(updated);
        communications := updated;
      } else {
        var _ := store.AddCommunication(PublicationDraft(form, date), now);
        var all := store.GetCommunications();
        communications := all;
      }
      ResetForm();
    }

    /** `handleDelete`: removes the id from the component's copy and writes
        it back. */
    method HandleDelete(id: string)
      modifies this`communications, store`communications
      ensures communications == RemoveById(old(communications), id)
      ensures store.communications == Stored(communications)
    {
      var updated := RemoveById(communications, id);
      store.SaveCommunications(updated);
      communications := updated;
    }
  }
}

/**
 * The freelancer's portfolio editor (src/components/PortfolioModal.tsx):
 * the list updates — append, replace by id, delete by id — as functions on
 * sequences, and the editor's form state as a class whose handlers set it.
 * The parent keeps the list and hands it back after `onUpdatePortfolio`;
 * here the editor holds it in its own field.
 */
module Portfolio {
  import opened Wrappers

  datatype Item = Item(id: int, title: string, description: string, imageUrl: string,
                       category: string, completedDate: string, clientName: Option<string>)

  datatype Form = Form(title: string, description: string, imageUrl: string,
                       category: string, completedDate: string, clientName: string)

  /** The form's inputs, by their `name` attribute. */
  datatype FormField = Title | Description | ImageUrl | Category | CompletedDate | ClientName

  function EmptyForm(): Form {
    Form("", "", "", "", "", "")
  }

  function FieldValue(f: Form, name: FormField): string {
    match name
    case Title => f.title
    case Description => f.description
    case ImageUrl => f.imageUrl
    case Category => f.category
    case CompletedDate => f.completedDate
    case ClientName => f.clientName
  }

  /** `{ ...prev, [name]: value }`. */
  function SetField(f: Form, name: FormField, value: string): (r: Form)
    ensures forall k :: FieldValue(r, k) == if k == name then value else FieldValue(f, k)
  {
    match name
    case Title => f.(title := value)
    case Description => f.(description := value)
    case ImageUrl => f.(imageUrl := value)
    case Category => f.(category := value)
    case CompletedDate => f.(completedDate := value)
    case ClientName => f.(clientName := value)
  }

  /** A picture on the stock-photo site, at the size the editor asks for. */
  function Pexels(path: string): string {
    "https://images.pexels.com/photos/" + path + "?auto=compress&cs=tinysrgb&w=400"
  }

  /** The six stock pictures offered when no image URL is given. */
  function SampleImages(): (urls: seq<string>)
    ensures |urls| == 6
  {
    [Pexels("1249611/pexels-photo-1249611.jpeg"),
     Pexels("162553/keys-workshop-mechanic-tools-162553.jpeg"),
     Pexels("209274/pexels-photo-209274.jpeg"),
     Pexels("1571460/pexels-photo-1571460.jpeg"),
     Pexels("1080721/pexels-photo-1080721.jpeg"),
     Pexels("1370704/pexels-photo-1370704.jpeg")]
  }

  /** `editingItem?.id || Date.now()`: the edited item's id unless there is none or it is 0. */
  function NewItemId(editing: Option<Item>, now: int): (id: int)
    ensures editing.Some? && editing.value.id != 0 ==> id == editing.value.id
    ensures editing.None? || editing.value.id == 0 ==> id == now
  {
    if editing.Some? && editing.value.id != 0 then editing.value.id else now
  }

  /** The image URL typed in, or the stock picture `pick` (`Math.floor(Math.random() * 6)`) when it is empty. */
  function ImageFor(imageUrl: string, pick: nat): (url: string)
    requires pick < |SampleImages()|
    ensures imageUrl != "" ==> url == imageUrl
    ensures imageUrl == "" ==> url in SampleImages()
  {
    if imageUrl != "" then imageUrl else SampleImages()[pick]
  }

  /** The item `handleSubmit` builds from the form. */
  function NewItem(form: Form, editing: Option<Item>, now: int, pick: nat): Item
    requires pick < |SampleImages()|
  {
    Item(NewItemId(editing, now), form.title, form.description, ImageFor(form.imageUrl, pick),
         form.category, form.completedDate, Some(form.clientName))
  }

  // ---- the list updates ----

  /** `portfolio.map(item => item.id === id ? newItem : item)`. */
  function ReplaceById(items: seq<Item>, id: int, newItem: Item): seq<Item> {
    if items == [] then []
    else [if items[0].id == id then newItem else items[0]] + ReplaceById(items[1..], id, newItem)
  }

  /** `portfolio.filter(item => item.id !== id)`. */
  function DeleteById(items: seq<Item>, id: int): seq<Item> {
    if items == [] then []
    else (if items[0].id == id then [] else [items[0]]) + DeleteById(items[1..], id)
  }

  /** What submitting does to the list: replace the edited item's id, or append. */
  function Submitted(items: seq<Item>, editing: Option<Item>, newItem: Item): seq<Item> {
    if editing.Some? then ReplaceById(items, editing.value.id, newItem) else items + [newItem]
  }

  predicate HasId(items: seq<Item>, id: int) {
    exists i :: 0 <= i < |items| && items[i].id == id
  }

  /** Replacing keeps the length and every position, except that each item with the id becomes the new item. */
  lemma {:induction false} ReplaceByIdPointwise(items: seq<Item>, id: int, newItem: Item)
    ensures |ReplaceById(items, id, newItem)| == |items|
    ensures forall i :: 0 <= i < |items| ==>
              ReplaceById(items, id, newItem)[i] == if items[i].id == id then newItem else items[i]
  {
    if items != [] {
      ReplaceByIdPointwise(items[1..], id, newItem);
      var r := ReplaceById(items, id, newItem);
      forall i | 1 <= i < |items|
        ensures r[i] == if items[i].id == id then newItem else items[i]
      {
        assert r[i] == ReplaceById(items[1..], id, newItem)[i - 1];
        assert items[1..][i - 1] == items[i];
      }
    }
  }

  /** Replacing an id no item has changes nothing. */
  lemma ReplaceAbsentId(items: seq<Item>, id: int, newItem: Item)
    requires !HasId(items, id)
    ensures ReplaceById(items, id, newItem) == items
  {
    ReplaceByIdPointwise(items, id, newItem);
  }

  /** Deleting keeps, in order, exactly the items without the id. */
  lemma {:induction false} DeleteByIdAppend(a: seq<Item>, b: seq<Item>, id: int)
    ensures DeleteById(a + b, id) == DeleteById(a, id) + DeleteById(b, id)
  {
    if a != [] {
      DeleteByIdAppend(a[1..], b, id);
      assert (a + b)[0] == a[0];
      assert (a + b)[1..] == a[1..] + b;
      var head := if a[0].id == id then [] else [a[0]];
      calc {
        DeleteById(a + b, id);
        head + DeleteById(a[1..] + b, id);
        head + (DeleteById(a[1..], id) + DeleteById(b, id));
        (head + DeleteById(a[1..], id)) + DeleteById(b, id);
        DeleteById(a, id) + DeleteById(b, id);
      }
    } else {
      assert a + b == b;
    }
  }

  /** Nothing with the id is left, everything else is kept, and nothing new appears. */
  lemma {:induction false} DeleteByIdMembers(items: seq<Item>, id: int)
    ensures forall x :: x in DeleteById(items, id) <==> x in items && x.id != id
    ensures |DeleteById(items, id)| <= |items|
  {
    if items != [] {
      DeleteByIdMembers(items[1..], id);
      assert items == [items[0]] + items[1..];
    }
  }

  /** Deleting an id no item has leaves the list unchanged. */
  lemma {:induction false} DeleteAbsentId(items: seq<Item>, id: int)
    requires !HasId(items, id)
    ensures DeleteById(items, id) == items
  {
    if items != [] {
      forall i | 0 <= i < |items[1..]|
        ensures items[1..][i].id != id
      {
        assert items[1..][i] == items[i + 1];
      }
      DeleteAbsentId(items[1..], id);
      assert items[0].id != id;
      assert items == [items[0]] + items[1..];
    }
  }

  /** Deleting twice is deleting once. */
  lemma DeleteByIdIdempotent(items: seq<Item>, id: int)
    ensures DeleteById(DeleteById(items, id), id) == DeleteById(items, id)
  {
    DeleteByIdMembers(items, id);
    var r := DeleteById(items, id);
    forall i | 0 <= i < |r|
      ensures r[i].id != id
    {
      assert r[i] in r;
    }
    DeleteAbsentId(r, id);
  }

  /** Adding an item under a fresh id and then deleting that id gives the list back. */
  lemma AddThenDelete(items: seq<Item>, newItem: Item)
    requires !HasId(items, newItem.id)
    ensures DeleteById(Submitted(items, None, newItem), newItem.id) == items
  {
    DeleteByIdAppend(items, [newItem], newItem.id);
    DeleteAbsentId(items, newItem.id);
    assert DeleteById([newItem], newItem.id) == [];
  }

  /** Adding appends at the end, keeping every earlier item in place. */
  lemma AddAppends(items: seq<Item>, newItem: Item)
    ensures var r := Submitted(items, None, newItem);
            |r| == |items| + 1 && r[..|items|] == items && r[|items|] == newItem
  {
  }

  /** Submitting an edit changes exactly the items with the edited id, into the new item. */
  lemma EditReplaces(items: seq<Item>, editing: Item, newItem: Item)
    ensures var r := Submitted(items, Some(editing), newItem);
            && |r| == |items|
            && forall i :: 0 <= i < |items| ==> r[i] == if items[i].id == editing.id then newItem else items[i]
  {
    ReplaceByIdPointwise(items, editing.id, newItem);
  }

  /** The editor: the list, the item being edited, whether the form is open, and the form. */
  class PortfolioEditor {
    var portfolio: seq<Item>
    var editingItem: Option<Item>
    var isAddingNew: bool
    var formData: Form

    constructor (portfolio: seq<Item>)
      ensures this.portfolio == portfolio && editingItem == None && !isAddingNew && formData == EmptyForm()
    {
      this.portfolio := portfolio;
      editingItem := None;
      isAddingNew := false;
      formData := EmptyForm();
    }

    /** `handleInputChange`: one field of the form takes the typed value. */
    method HandleInputChange(name: FormField, value: string)
      modifies this
      ensures formData == SetField(old(formData), name, value)
      ensures forall k :: k != name ==> FieldValue(formData, k) == FieldValue(old(formData), k)
      ensures portfolio == old(portfolio) && editingItem == old(editingItem) && isAddingNew == old(isAddingNew)
    {
      formData := SetField(formData, name, value);
    }

    /** `selectSampleImage`: only the image URL changes. */
    method SelectSampleImage(imageUrl: string)
      modifies this
      ensures formData == old(formData).(imageUrl := imageUrl)
      ensures portfolio == old(portfolio) && editingItem == old(editingItem) && isAddingNew == old(isAddingNew)
    {
      formData := formData.(imageUrl := imageUrl);
    }

    /** The "Add Project" buttons open an empty form. */
    method OpenNew()
      modifies this
      ensures isAddingNew
      ensures portfolio == old(portfolio) && editingItem == old(editingItem) && formData == old(formData)
    {
      isAddingNew := true;
    }

    /** `resetForm` (also the form's cancel buttons): an empty, closed form with nothing being edited. */
    method ResetForm()
      modifies this
      ensures formData == EmptyForm() && editingItem == None && !isAddingNew
      ensures portfolio == old(portfolio)
    {
      formData := EmptyForm();
      editingItem := None;
      isAddingNew := false;
    }

    /** `handleEdit`: the item's fields fill the form (a missing client name as ''), and the form opens. */
    method HandleEdit(item: Item)
      modifies this
      ensures editingItem == Some(item) && isAddingNew
      ensures formData == Form(item.title, item.description, item.imageUrl, item.category, item.completedDate,
                               if item.clientName.Some? then item.clientName.value else "")
      ensures portfolio == old(portfolio)
    {
      editingItem := Some(item);
      formData := Form(item.title, item.description, item.imageUrl, item.category, item.completedDate,
                       if item.clientName.Some? then item.clientName.value else "");
      isAddingNew := true;
    }

    /** `handleDelete`: every item with the id goes. */
    method HandleDelete(id: int)
      modifies this
      ensures portfolio == DeleteById(old(portfolio), id)
      ensures editingItem == old(editingItem) && isAddingNew == old(isAddingNew) && formData == old(formData)
    {
      portfolio := DeleteById(portfolio, id);
    }

    /**
     * `handleSubmit`: the form becomes an item (keeping the edited item's id,
     * a stock picture when no URL was given) that replaces the edited item or
     * is appended; then the form is reset.
     */
    method HandleSubmit(now: int, pick: nat)
      modifies this
      requires pick < |SampleImages()|
      ensures portfolio == Submitted(old(portfolio), old(editingItem), NewItem(old(formData), old(editingItem), now, pick))
      ensures formData == EmptyForm() && editingItem == None && !isAddingNew
    {
      var newItem := NewItem(formData, editingItem, now, pick);
      var updatedPortfolio;
      if editingItem.Some? {
        updatedPortfolio := ReplaceById(portfolio, editingItem.value.id, newItem);
      } else {
        updatedPortfolio := portfolio + [newItem];
      }
      portfolio := updatedPortfolio;
      ResetForm();
    }
  }
}

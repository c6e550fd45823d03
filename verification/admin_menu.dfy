/**
 * The admin menu page: a table of dishes with a language-selected name search, and add,
 * edit and delete dialogs that update the list through a shared form.
 */
module AdminMenu {
  import opened Wrappers
  import opened Text
  import opened Language
  import Seqs

  datatype MenuItem = MenuItem(
    id: string,
    nameUz: string, nameRu: string, nameEn: string,
    descriptionUz: string, descriptionRu: string, descriptionEn: string,
    price: int,
    image: string,
    menuType: string)

  /** A picture chosen in the form (a browser `File`). */
  datatype ImageFile = ImageFile(fileName: string)

  /** The dialog form: every field is text as typed, except the optional picture. */
  datatype MenuForm = MenuForm(
    nameUz: string, nameRu: string, nameEn: string,
    descriptionUz: string, descriptionRu: string, descriptionEn: string,
    price: string,
    menuType: string,
    image: Option<ImageFile>)

  /** The text fields of the form, as `handleInputChange` names them. */
  datatype FormField =
    NameUz | NameRu | NameEn | DescriptionUz | DescriptionRu | DescriptionEn | Price | Type

  /** `initialFormData`: every text field empty and no picture. */
  const InitialFormData := MenuForm("", "", "", "", "", "", "", "", None)

  /** The picture a new dish gets when no file was chosen. */
  const DefaultImage :=
    "https://images.unsplash.com/photo-1567620905732-2d1ec7ab7445?ixlib=rb-4.0.3&auto=format&fit=crop&w=500&q=80"

  /** The name field the search looks at: `nameUz`, `nameRu` or `nameEn`. */
  function NameIn(item: MenuItem, lang: Lang): string {
    match lang
    case Uz => item.nameUz
    case Ru => item.nameRu
    case En => item.nameEn
  }

  /** Whether a dish passes the search: its name in the chosen language, lower-cased,
      contains the lower-cased term. */
  predicate Matches(item: MenuItem, term: string, lang: Lang)
    ensures Matches(item, term, lang) <==> exists i :: OccursAt(Lower(NameIn(item, lang)), Lower(term), i)
  {
    IncludesIffOccurs(Lower(NameIn(item, lang)), Lower(term));
    Includes(Lower(NameIn(item, lang)), Lower(term))
  }

  /** With nothing typed, every dish passes the search. */
  lemma EmptyTermMatchesAll(lang: Lang)
    ensures forall item :: Matches(item, "", lang)
  {
    forall item: MenuItem
      ensures Matches(item, "", lang)
    {
    }
  }

  /** `filteredItems`: the dishes that pass the search, in their original order and
      multiplicity; an empty term keeps them all. */
  function FilteredItems(items: seq<MenuItem>, term: string, lang: Lang): (r: seq<MenuItem>)
    ensures Seqs.IsSubsequence(r, items)
    ensures forall item :: item in r <==> item in items && Matches(item, term, lang)
    ensures forall item :: multiset(r)[item] == if Matches(item, term, lang) then multiset(items)[item] else 0
    ensures term == "" ==> r == items
  {
    EmptyTermMatchesAll(lang);
    Seqs.Filter(items, item => Matches(item, term, lang))
  }

  /** `handleInputChange`: the form with one text field replaced. */
  function WithField(form: MenuForm, field: FormField, value: string): (r: MenuForm)
    ensures FieldOf(r, field) == value
    ensures forall g :: g != field ==> FieldOf(r, g) == FieldOf(form, g)
    ensures r.image == form.image
  {
    match field
    case NameUz => form.(nameUz := value)
    case NameRu => form.(nameRu := value)
    case NameEn => form.(nameEn := value)
    case DescriptionUz => form.(descriptionUz := value)
    case DescriptionRu => form.(descriptionRu := value)
    case DescriptionEn => form.(descriptionEn := value)
    case Price => form.(price := value)
    case Type => form.(menuType := value)
  }

  /** The text of form field `field`. */
  function FieldOf(form: MenuForm, field: FormField): string {
    match field
    case NameUz => form.nameUz
    case NameRu => form.nameRu
    case NameEn => form.nameEn
    case DescriptionUz => form.descriptionUz
    case DescriptionRu => form.descriptionRu
    case DescriptionEn => form.descriptionEn
    case Price => form.price
    case Type => form.menuType
  }

  /** The dish the add dialog creates: id `id`, the form's texts, price `price` (what
      `parseFloat` read from the price field) and, for the picture, `objectUrl` (the URL the
      browser made for the chosen file) or the default picture when no file was chosen. */
  function NewItem(id: string, form: MenuForm, price: int, objectUrl: string): (r: MenuItem)
    ensures r.id == id && r.price == price && r.menuType == form.menuType
    ensures r.nameUz == form.nameUz && r.nameRu == form.nameRu && r.nameEn == form.nameEn
    ensures r.descriptionUz == form.descriptionUz && r.descriptionRu == form.descriptionRu
    ensures r.descriptionEn == form.descriptionEn
    ensures r.image == if form.image.Some? then objectUrl else DefaultImage
  {
    MenuItem(id, form.nameUz, form.nameRu, form.nameEn,
             form.descriptionUz, form.descriptionRu, form.descriptionEn,
             price, if form.image.Some? then objectUrl else DefaultImage, form.menuType)
  }

  /** The dish the edit dialog writes back: `selected` with the form's texts and price, and
      with its own picture unless a new file was chosen. */
  function UpdatedItem(selected: MenuItem, form: MenuForm, price: int, objectUrl: string): (r: MenuItem)
    ensures r.id == selected.id && r.price == price && r.menuType == form.menuType
    ensures r.nameUz == form.nameUz && r.nameRu == form.nameRu && r.nameEn == form.nameEn
    ensures r.descriptionUz == form.descriptionUz && r.descriptionRu == form.descriptionRu
    ensures r.descriptionEn == form.descriptionEn
    ensures r.image == if form.image.Some? then objectUrl else selected.image
  {
    MenuItem(selected.id, form.nameUz, form.nameRu, form.nameEn,
             form.descriptionUz, form.descriptionRu, form.descriptionEn,
             price, if form.image.Some? then objectUrl else selected.image, form.menuType)
  }

  /** The form `openEditModal` fills from a dish: the six texts and the type copied, the
      price as decimal text, and no picture chosen. */
  function EditForm(item: MenuItem): (r: MenuForm)
    ensures r.nameUz == item.nameUz && r.nameRu == item.nameRu && r.nameEn == item.nameEn
    ensures r.descriptionUz == item.descriptionUz && r.descriptionRu == item.descriptionRu
    ensures r.descriptionEn == item.descriptionEn && r.menuType == item.menuType
    ensures r.price == DecimalText(item.price) && DecimalValue(r.price) == Some(item.price)
    ensures r.image == None
  {
    DecimalRoundTrip(item.price);
    MenuForm(item.nameUz, item.nameRu, item.nameEn,
             item.descriptionUz, item.descriptionRu, item.descriptionEn,
             DecimalText(item.price), item.menuType, None)
  }

  /** Opening a dish for editing and saving without touching the form writes back the same
      dish, whatever URL the browser would have made. */
  lemma EditUnchangedKeepsItem(item: MenuItem, objectUrl: string)
    ensures UpdatedItem(item, EditForm(item), DecimalValue(EditForm(item).price).value, objectUrl) == item
  {
  }

  /** Opening a dish that was just added for editing gives back the form it was created
      from: the same texts and type, and price text that reads back as the price it was
      saved with. */
  lemma AddThenEditRestoresForm(id: string, form: MenuForm, price: int, objectUrl: string)
    ensures EditForm(NewItem(id, form, price, objectUrl)).(price := form.price, image := form.image) == form
    ensures DecimalValue(EditForm(NewItem(id, form, price, objectUrl)).price) == Some(price)
  {
  }

  /** Selects the dishes whose id is `id`. */
  function HasId(id: string): MenuItem -> bool {
    (item: MenuItem) => item.id == id
  }

  /** Every dish with id `id` replaced by `updated`; the list keeps its length and the
      other dishes keep their places. */
  function ReplaceById(items: seq<MenuItem>, id: string, updated: MenuItem): (r: seq<MenuItem>)
    ensures |r| == |items|
    ensures forall i :: 0 <= i < |items| ==> r[i] == if items[i].id == id then updated else items[i]
  {
    Seqs.MapWhere(items, HasId(id), _ => updated)
  }

  /** Every dish with id `id` removed; the others stay, in order and multiplicity. */
  function RemoveById(items: seq<MenuItem>, id: string): (r: seq<MenuItem>)
    ensures Seqs.IsSubsequence(r, items)
    ensures forall item :: item in r <==> item in items && item.id != id
    ensures forall item :: multiset(r)[item] == if item.id != id then multiset(items)[item] else 0
  {
    Seqs.Filter(items, (item: MenuItem) => item.id != id)
  }

  /** The state of the menu page. */
  class AdminMenuPage {
    var menuItems: seq<MenuItem>
    var searchTerm: string
    var selectedLang: Lang
    var showAddModal: bool
    var showEditModal: bool
    var showDeleteModal: bool
    var showViewModal: bool
    var selectedItem: Option<MenuItem>
    var formData: MenuForm
    var isLoading: bool

    /** The page as it mounts, with the given dishes. */
    constructor (initial: seq<MenuItem>)
      ensures menuItems == initial && searchTerm == "" && selectedLang == Uz
      ensures !showAddModal && !showEditModal && !showDeleteModal && !showViewModal
      ensures selectedItem == None && formData == InitialFormData && !isLoading
    {
      menuItems := initial;
      searchTerm := "";
      selectedLang := Uz;
      showAddModal, showEditModal, showDeleteModal, showViewModal := false, false, false, false;
      selectedItem := None;
      formData := InitialFormData;
      isLoading := false;
    }

    /** The rows the table shows: the dishes that pass the current search, in order. */
    function Shown(): (r: seq<MenuItem>)
      reads this
      ensures Seqs.IsSubsequence(r, menuItems)
      ensures forall item :: item in r <==> item in menuItems && Matches(item, searchTerm, selectedLang)
    {
      FilteredItems(menuItems, searchTerm, selectedLang)
    }

    method SetSearchTerm(term: string)
      modifies this`searchTerm
      ensures searchTerm == term
    {
      searchTerm := term;
    }

    method SetLang(lang: Lang)
      modifies this`selectedLang
      ensures selectedLang == lang
    {
      selectedLang := lang;
    }

    /** `handleInputChange`. */
    method HandleInputChange(field: FormField, value: string)
      modifies this`formData
      ensures formData == WithField(old(formData), field, value)
    {
      formData := WithField(formData, field, value);
    }

    /** `handleImageChange`: the chosen file, or none. */
    method HandleImageChange(file: Option<ImageFile>)
      modifies this`formData
      ensures formData == old(formData).(image := file)
    {
      formData := formData.(image := file);
    }

    /** The "new dish" button: a clean form, nothing selected, the add dialog open. */
    method OpenAddModal()
      modifies this`formData, this`selectedItem, this`showAddModal
      ensures formData == InitialFormData && selectedItem == None && showAddModal
    {
      formData := InitialFormData;
      selectedItem := None;
      showAddModal := true;
    }

    /** `handleAddItem`: appends one new dish at the end, closes the dialog and resets the
        form; `newId` stands for `Date.now().toString()`, `price` for what `parseFloat`
        read from the price field. */
    method HandleAddItem(newId: string, price: int, objectUrl: string)
      requires ReadsAsSafeInteger(formData.price) ==> price == DecimalValue(formData.price).value
      modifies this`menuItems, this`showAddModal, this`formData, this`isLoading
      ensures menuItems == old(menuItems) + [NewItem(newId, old(formData), price, objectUrl)]
      ensures !showAddModal && formData == InitialFormData && !isLoading
    {
      isLoading := true;
      var item := NewItem(newId, formData, price, objectUrl);
      menuItems := menuItems + [item];
      showAddModal := false;
      formData := InitialFormData;
      isLoading := false;
    }

    /** `handleEditItem`: with no dish selected, does nothing; otherwise replaces every dish
        with the selected id by the edited dish, closes the dialog, clears the selection and
        resets the form. */
    method HandleEditItem(price: int, objectUrl: string)
      requires ReadsAsSafeInteger(formData.price) ==> price == DecimalValue(formData.price).value
      modifies this`menuItems, this`showEditModal, this`selectedItem, this`formData, this`isLoading
      ensures old(selectedItem) == None ==>
        menuItems == old(menuItems) && selectedItem == None && formData == old(formData)
        && showEditModal == old(showEditModal) && isLoading == old(isLoading)
      ensures old(selectedItem).Some? ==>
        && menuItems == ReplaceById(old(menuItems), old(selectedItem).value.id,
                                    UpdatedItem(old(selectedItem).value, old(formData), price, objectUrl))
        && !showEditModal && selectedItem == None && formData == InitialFormData && !isLoading
    {
      if selectedItem == None {
        return;
      }
      isLoading := true;
      var selected := selectedItem.value;
      var updated := UpdatedItem(selected, formData, price, objectUrl);
      menuItems := ReplaceById(menuItems, selected.id, updated);
      showEditModal := false;
      selectedItem := None;
      formData := InitialFormData;
      isLoading := false;
    }

    /** `handleDeleteItem`: with no dish selected, does nothing; otherwise removes every dish
        with the selected id, closes the dialog and clears the selection. */
    method HandleDeleteItem()
      modifies this`menuItems, this`showDeleteModal, this`selectedItem, this`isLoading
      ensures old(selectedItem) == None ==>
        menuItems == old(menuItems) && selectedItem == None
        && showDeleteModal == old(showDeleteModal) && isLoading == old(isLoading)
      ensures old(selectedItem).Some? ==>
        && menuItems == RemoveById(old(menuItems), old(selectedItem).value.id)
        && !showDeleteModal && selectedItem == None && !isLoading
    {
      if selectedItem == None {
        return;
      }
      isLoading := true;
      menuItems := RemoveById(menuItems, selectedItem.value.id);
      showDeleteModal := false;
      selectedItem := None;
      isLoading := false;
    }

    /** `openEditModal`: selects the dish, fills the form from it, opens the edit dialog. */
    method OpenEditModal(item: MenuItem)
      modifies this`selectedItem, this`formData, this`showEditModal
      ensures selectedItem == Some(item) && formData == EditForm(item) && showEditModal
    {
      selectedItem := Some(item);
      formData := EditForm(item);
      showEditModal := true;
    }

    /** `openDeleteModal`: selects the dish and opens the delete confirmation. */
    method OpenDeleteModal(item: MenuItem)
      modifies this`selectedItem, this`showDeleteModal
      ensures selectedItem == Some(item) && showDeleteModal
    {
      selectedItem := Some(item);
      showDeleteModal := true;
    }

    /** `openViewModal`: selects the dish and opens the detail view. */
    method OpenViewModal(item: MenuItem)
      modifies this`selectedItem, this`showViewModal
      ensures selectedItem == Some(item) && showViewModal
    {
      selectedItem := Some(item);
      showViewModal := true;
    }
  }
}

/** The menus page: a list of menus with one being edited, and the menu form, whose
    sections carry a position and a list of items. */
module Menus {
  import opened Common
  import opened Reconcile

  datatype MenuItem = MenuItem(
    id: Option<int>, name: string, description: string, price: int, available: bool)

  datatype Section = Section(
    id: Option<int>, name: string, description: string, position: int, visible: int,
    items: seq<MenuItem>)

  /** A menu as the API carries it. `sections` is the list inside the `{sections: [...]}`
      wrapper, or `None` when the record holds no such list. */
  datatype MenuDto = MenuDto(
    restaurantId: int, name: string, menuType: string, collapse: int,
    sections: Option<seq<Section>>)

  type Menu = WithId<MenuDto>

  const LoadError: string := "Falha ao carregar a lista de menus. Por favor, tente novamente."
  const SaveError: string := "Falha ao salvar o menu. Por favor, tente novamente."

  class MenusPage {
    var menus: seq<Menu>
    var loading: bool
    var error: Option<string>
    var selectedMenu: Option<Menu>
    var isEditing: bool

    constructor ()
      ensures menus == [] && loading && error == None && selectedMenu == None && !isEditing
    {
      menus := [];
      loading := true;
      error := None;
      selectedMenu := None;
      isEditing := false;
    }

    /** Loads the list: skipped while signed out; a failure keeps the list it had. */
    method FetchMenus(isAuthenticated: bool, reply: Reply<seq<Menu>>) returns (called: bool)
      modifies this`menus, this`loading, this`error
      ensures called == isAuthenticated
      ensures !called ==> menus == old(menus) && loading == old(loading) && error == old(error)
      ensures called ==> !loading
      ensures called && reply.Ok? ==> menus == reply.value && error == None
      ensures called && reply.Err? ==> menus == old(menus) && error == Some(LoadError)
    {
      called := isAuthenticated;
      if !isAuthenticated {
        return;
      }
      loading := true;
      if reply.Ok? {
        menus := reply.value;
        error := None;
      } else {
        error := Some(LoadError);
      }
      loading := false;
    }

    method SelectMenu(menu: Menu)
      modifies this`selectedMenu, this`isEditing
      ensures selectedMenu == Some(menu) && isEditing
    {
      selectedMenu := Some(menu);
      isEditing := true;
    }

    method CancelEdit()
      modifies this`selectedMenu, this`isEditing
      ensures selectedMenu == None && !isEditing
    {
      selectedMenu := None;
      isEditing := false;
    }

    /** The "add menu" button: opens the form without touching the selection. */
    method StartEditing()
      modifies this`isEditing
      ensures isEditing
    {
      isEditing := true;
    }

    /** Saves the form: update and merge the known id when the selected menu has one,
        otherwise create and append the server's record. A success closes the form; a
        failure keeps list and selection and sets the error. */
    method SaveMenu(updatedMenu: Menu, reply: Reply<Menu>) returns (call: Call<Menu>)
      modifies this`menus, this`error, this`selectedMenu, this`isEditing
      ensures var sel := old(selectedMenu);
        if sel.Some? && HasTruthyId(sel.value)
        then call == Update(sel.value.id, updatedMenu)
        else call == Create(updatedMenu)
      ensures reply.Ok? && call.Update? ==>
        menus == ReplaceById(old(menus), call.target, updatedMenu.(id := call.target))
      ensures reply.Ok? && call.Create? ==> menus == old(menus) + [reply.value]
      ensures reply.Ok? ==> selectedMenu == None && !isEditing && error == old(error)
      ensures reply.Err? ==>
        menus == old(menus) && error == Some(SaveError)
        && selectedMenu == old(selectedMenu) && isEditing == old(isEditing)
    {
      if selectedMenu.Some? && HasTruthyId(selectedMenu.value) {
        var id := selectedMenu.value.id;
        call := Update(id, updatedMenu);
        if reply.Err? {
          error := Some(SaveError);
          return;
        }
        menus := ReplaceById(menus, id, updatedMenu.(id := id));
      } else {
        call := Create(updatedMenu);
        if reply.Err? {
          error := Some(SaveError);
          return;
        }
        menus := menus + [reply.value];
      }
      selectedMenu := None;
      isEditing := false;
    }
  }

  /** Section positions are exactly 0, 1, ..., n-1 in list order. */
  predicate PositionsCanonical(sections: seq<Section>) {
    forall k :: 0 <= k < |sections| ==> sections[k].position == k
  }

  /** The form's starting values: restaurant 1, empty name, type MENU and collapse 0 where
      the menu has none. The form has no id. */
  function InitialMenuForm(menu: Option<Menu>): (f: MenuDto)
    ensures menu.None? ==> f == MenuDto(1, "", "MENU", 0, Some([]))
    ensures f.restaurantId != 0 && f.menuType != "" && f.sections.Some?
    ensures menu.Some? ==> f.name == menu.value.dto.name && f.collapse == menu.value.dto.collapse
    ensures menu.Some? && menu.value.dto.restaurantId != 0 ==> f.restaurantId == menu.value.dto.restaurantId
    ensures menu.Some? && menu.value.dto.restaurantId == 0 ==> f.restaurantId == 1
    ensures menu.Some? && menu.value.dto.menuType != "" ==> f.menuType == menu.value.dto.menuType
    ensures menu.Some? && menu.value.dto.menuType == "" ==> f.menuType == "MENU"
    ensures menu.Some? && menu.value.dto.sections.Some? ==> f.sections == menu.value.dto.sections
  {
    match menu
    case None => MenuDto(1, "", "MENU", 0, Some([]))
    case Some(m) => MenuDto(
      if m.dto.restaurantId != 0 then m.dto.restaurantId else 1,
      m.dto.name, OrElse(m.dto.menuType, "MENU"), m.dto.collapse,
      if m.dto.sections.Some? then m.dto.sections else Some([]))
  }

  /** The sections the form starts with: the menu's section list, or none; always the list
      the form's own fields start with. */
  function InitialSections(menu: Option<Menu>): (ss: seq<Section>)
    ensures InitialMenuForm(menu).sections == Some(ss)
    ensures menu.Some? && menu.value.dto.sections.Some? ==> ss == menu.value.dto.sections.value
    ensures (menu.None? || menu.value.dto.sections.None?) ==> ss == []
  {
    if menu.Some? && menu.value.dto.sections.Some? then menu.value.dto.sections.value else []
  }

  /** What the form hands to the page on submit: its fields with the edited sections, and
      no id. */
  function SubmittedMenu(formData: MenuDto, sections: seq<Section>): (m: Menu)
    ensures m.id == None && m.dto.sections == Some(sections)
    ensures m.dto.(sections := formData.sections) == formData
  {
    WithId(None, formData.(sections := Some(sections)))
  }

  datatype MenuField = Name(s: string) | MenuType(s: string) | Collapse(n: int)

  datatype SectionField =
    SectionName(s: string) | SectionDescription(s: string) | Position(n: int) | Visible(n: int)

  datatype ItemField =
    ItemName(s: string) | ItemDescription(s: string) | Price(n: int) | Available(b: bool)

  /** A section with one field replaced. */
  function WithSectionField(s: Section, f: SectionField): (r: Section)
    ensures r.id == s.id && r.items == s.items
    ensures f.SectionName? ==> r == s.(name := f.s)
    ensures f.SectionDescription? ==> r == s.(description := f.s)
    ensures f.Position? ==> r == s.(position := f.n)
    ensures f.Visible? ==> r == s.(visible := f.n)
  {
    match f
    case SectionName(x) => s.(name := x)
    case SectionDescription(x) => s.(description := x)
    case Position(n) => s.(position := n)
    case Visible(n) => s.(visible := n)
  }

  /** An item with one field replaced. */
  function WithItemField(i: MenuItem, f: ItemField): (r: MenuItem)
    ensures r.id == i.id
    ensures f.ItemName? ==> r == i.(name := f.s)
    ensures f.ItemDescription? ==> r == i.(description := f.s)
    ensures f.Price? ==> r == i.(price := f.n)
    ensures f.Available? ==> r == i.(available := f.b)
  {
    match f
    case ItemName(x) => i.(name := x)
    case ItemDescription(x) => i.(description := x)
    case Price(n) => i.(price := n)
    case Available(b) => i.(available := b)
  }

  const NewItem: MenuItem := MenuItem(None, "", "", 0, true)

  class MenuForm {
    var formData: MenuDto
    var sections: seq<Section>

    constructor (menu: Option<Menu>)
      ensures formData == InitialMenuForm(menu) && sections == InitialSections(menu)
    {
      formData := InitialMenuForm(menu);
      sections := InitialSections(menu);
    }

    /** Appends an empty, visible section positioned after the existing ones. */
    method AddSection()
      modifies this`sections
      ensures sections == old(sections) + [Section(None, "", "", |old(sections)|, 1, [])]
      ensures PositionsCanonical(old(sections)) ==> PositionsCanonical(sections)
    {
      sections := sections + [Section(None, "", "", |sections|, 1, [])];
    }

    /** Deletes the section at `index`, then walks the remaining sections in order and
        sets each one's position to its index. */
    method RemoveSection(index: nat)
      requires index < |sections|
      modifies this`sections
      ensures |sections| == |old(sections)| - 1
      ensures forall k :: 0 <= k < |sections| ==>
        sections[k] == RemoveAt(old(sections), index)[k].(position := k)
      ensures PositionsCanonical(sections)
    {
      sections := RemoveAt(sections, index);
      ghost var spliced := sections;
      var i := 0;
      while i < |sections|
        invariant 0 <= i <= |sections| == |spliced|
        invariant forall k :: 0 <= k < i ==> sections[k] == spliced[k].(position := k)
        invariant forall k :: i <= k < |sections| ==> sections[k] == spliced[k]
      {
        sections := sections[i := sections[i].(position := i)];
        i := i + 1;
      }
    }

    /** Sets one field of the section at `index`; the other sections are untouched. */
    method UpdateSection(index: nat, field: SectionField)
      requires index < |sections|
      modifies this`sections
      ensures |sections| == |old(sections)|
      ensures sections[index] == WithSectionField(old(sections)[index], field)
      ensures forall k :: 0 <= k < |sections| && k != index ==> sections[k] == old(sections)[k]
    {
      sections := sections[index := WithSectionField(sections[index], field)];
    }

    /** Appends an empty, available item to one section. */
    method AddItem(sectionIndex: nat)
      requires sectionIndex < |sections|
      modifies this`sections
      ensures |sections| == |old(sections)|
      ensures sections[sectionIndex] ==
        old(sections)[sectionIndex].(items := old(sections)[sectionIndex].items + [NewItem])
      ensures forall k :: 0 <= k < |sections| && k != sectionIndex ==>
        sections[k] == old(sections)[k]
    {
      var s := sections[sectionIndex];
      sections := sections[sectionIndex := s.(items := s.items + [NewItem])];
    }

    /** Deletes exactly one item of one section. */
    method RemoveItem(sectionIndex: nat, itemIndex: nat)
      requires sectionIndex < |sections| && itemIndex < |sections[sectionIndex].items|
      modifies this`sections
      ensures |sections| == |old(sections)|
      ensures sections[sectionIndex] == old(sections)[sectionIndex].(
        items := RemoveAt(old(sections)[sectionIndex].items, itemIndex))
      ensures |sections[sectionIndex].items| == |old(sections)[sectionIndex].items| - 1
      ensures forall k :: 0 <= k < |sections| && k != sectionIndex ==>
        sections[k] == old(sections)[k]
    {
      var s := sections[sectionIndex];
      sections := sections[sectionIndex := s.(items := RemoveAt(s.items, itemIndex))];
    }

    /** Sets one field of one item. */
    method UpdateItem(sectionIndex: nat, itemIndex: nat, field: ItemField)
      requires sectionIndex < |sections| && itemIndex < |sections[sectionIndex].items|
      modifies this`sections
      ensures |sections| == |old(sections)|
      ensures sections[sectionIndex] == old(sections)[sectionIndex].(
        items := old(sections)[sectionIndex].items[itemIndex :=
          WithItemField(old(sections)[sectionIndex].items[itemIndex], field)])
      ensures forall k :: 0 <= k < |sections| && k != sectionIndex ==>
        sections[k] == old(sections)[k]
    {
      var s := sections[sectionIndex];
      var items := s.items[itemIndex := WithItemField(s.items[itemIndex], field)];
      sections := sections[sectionIndex := s.(items := items)];
    }

    method Change(field: MenuField)
      modifies this`formData
      ensures formData == match field
        case Name(s) => old(formData).(name := s)
        case MenuType(s) => old(formData).(menuType := s)
        case Collapse(n) => old(formData).(collapse := n)
    {
      match field {
        case Name(s) => formData := formData.(name := s);
        case MenuType(s) => formData := formData.(menuType := s);
        case Collapse(n) => formData := formData.(collapse := n);
      }
    }

    method Submit() returns (submitted: Menu)
      ensures submitted == SubmittedMenu(formData, sections)
    {
      submitted := WithId(None, formData.(sections := Some(sections)));
    }
  }

  /** Opening the form on a menu that has a restaurant, a type and a section list, and
      submitting it untouched, gives the menu's own values without its id. */
  lemma FormRoundTrip(m: Menu)
    requires m.dto.restaurantId != 0 && m.dto.menuType != "" && m.dto.sections.Some?
    ensures SubmittedMenu(InitialMenuForm(Some(m)), InitialSections(Some(m))) == WithId(None, m.dto)
  {
  }

  /** A new menu with one section "Drinks" that the server stores as id 42 ends up as the one
      list entry, with id 42 and the submitted section. */
  method CreateMenuScenario() returns (page: MenusPage)
    ensures |page.menus| == 1 && page.menus[0].id == Some(42)
    ensures page.menus[0].dto.sections == Some([Section(None, "Drinks", "", 0, 1, [])])
  {
    page := new MenusPage();
    var form := new MenuForm(None);
    form.AddSection();
    form.UpdateSection(0, SectionName("Drinks"));
    assert form.sections == [Section(None, "Drinks", "", 0, 1, [])];
    var submitted := form.Submit();
    var stored := submitted.(id := Some(42));
    var call := page.SaveMenu(submitted, Ok(stored));
  }
}

/** The restaurants page: a list of restaurants with one being edited, and the restaurant
    form. Unlike the orders and menus pages, saving decides between update and create by
    whether a restaurant is selected at all, and stores the submitted form verbatim. */
module Restaurants {
  import opened Common
  import opened Reconcile

  /** A restaurant as the API carries it. Text fields the record lacks are modelled as "";
      `webSettings` is `None` when the record has no settings object at all. */
  datatype RestaurantDto = RestaurantDto(
    name: string, address: string, city: string, country: string,
    username: string, password: string, webSettings: Option<map<string, string>>)

  type Restaurant = WithId<RestaurantDto>

  /** The palette a restaurant without web settings starts with. */
  const DefaultWebSettings: map<string, string> := map[
    "bannerImage" := "",
    "backgroundColour" := "#ffffff",
    "primaryColour" := "#4f372f",
    "primaryColourHover" := "#4f372f",
    "navBackgroundColour" := "#4f372f"]

  const LoadError: string :=
    "Falha ao carregar a lista de restaurantes. Por favor, tente novamente."
  const SaveError: string := "Falha ao salvar o restaurante. Por favor, tente novamente."

  class RestaurantsPage {
    var restaurants: seq<Restaurant>
    var loading: bool
    var error: Option<string>
    var selectedRestaurant: Option<Restaurant>
    var isEditing: bool

    constructor ()
      ensures restaurants == [] && loading && error == None
      ensures selectedRestaurant == None && !isEditing
    {
      restaurants := [];
      loading := true;
      error := None;
      selectedRestaurant := None;
      isEditing := false;
    }

    /** Loads the list. While signed out nothing at all happens (no call, the loading flag
        stays as it was); a success replaces the list and clears the error. */
    method FetchRestaurants(isAuthenticated: bool, reply: Reply<seq<Restaurant>>)
      returns (called: bool)
      modifies this`restaurants, this`loading, this`error
      ensures called == isAuthenticated
      ensures !called ==>
        restaurants == old(restaurants) && loading == old(loading) && error == old(error)
      ensures called ==> !loading
      ensures called && reply.Ok? ==> restaurants == reply.value && error == None
      ensures called && reply.Err? ==> restaurants == old(restaurants) && error == Some(LoadError)
    {
      called := isAuthenticated;
      if !isAuthenticated {
        return;
      }
      loading := true;
      if reply.Ok? {
        restaurants := reply.value;
        error := None;
      } else {
        error := Some(LoadError);
      }
      loading := false;
    }

    method SelectRestaurant(restaurant: Restaurant)
      modifies this`selectedRestaurant, this`isEditing
      ensures selectedRestaurant == Some(restaurant) && isEditing
    {
      selectedRestaurant := Some(restaurant);
      isEditing := true;
    }

    method CancelEdit()
      modifies this`selectedRestaurant, this`isEditing
      ensures selectedRestaurant == None && !isEditing
    {
      selectedRestaurant := None;
      isEditing := false;
    }

    /** The "add restaurant" button: opens the form without touching the selection. */
    method StartEditing()
      modifies this`isEditing
      ensures isEditing
    {
      isEditing := true;
    }

    /** Saves the form. Any selected restaurant, with or without an id, is updated (the id
        sent is `Number(id)`, NaN when absent) and every entry whose id equals the selected
        one's becomes the submitted form, as submitted; without a selection the restaurant
        is created and the server's record appended. */
    method SaveRestaurant(updated: Restaurant, reply: Reply<Restaurant>)
      returns (call: Call<Restaurant>)
      modifies this`restaurants, this`error, this`selectedRestaurant, this`isEditing
      ensures old(selectedRestaurant).Some? ==>
        call == Update(old(selectedRestaurant).value.id, updated)
      ensures old(selectedRestaurant).None? ==> call == Create(updated)
      ensures reply.Ok? && call.Update? ==>
        restaurants == ReplaceById(old(restaurants), call.target, updated)
      ensures reply.Ok? && call.Create? ==> restaurants == old(restaurants) + [reply.value]
      ensures reply.Ok? ==> selectedRestaurant == None && !isEditing && error == old(error)
      ensures reply.Err? ==>
        restaurants == old(restaurants) && error == Some(SaveError)
        && selectedRestaurant == old(selectedRestaurant) && isEditing == old(isEditing)
    {
      if selectedRestaurant.Some? {
        var id := selectedRestaurant.value.id;
        call := Update(id, updated);
        if reply.Err? {
          error := Some(SaveError);
          return;
        }
        restaurants := ReplaceById(restaurants, id, updated);
      } else {
        call := Create(updated);
        if reply.Err? {
          error := Some(SaveError);
          return;
        }
        restaurants := restaurants + [reply.value];
      }
      selectedRestaurant := None;
      isEditing := false;
    }
  }

  /** The form's starting values: the restaurant's fields ("" where it has none) and its
      web settings, or the default palette when it has none. The form carries no id. */
  function InitialRestaurantForm(restaurant: Option<Restaurant>): (f: RestaurantDto)
    ensures f.webSettings.Some?
    ensures restaurant.None? ==>
      f == RestaurantDto("", "", "", "", "", "", Some(DefaultWebSettings))
    ensures restaurant.Some? && restaurant.value.dto.webSettings.Some? ==>
      f == restaurant.value.dto
    ensures restaurant.Some? && restaurant.value.dto.webSettings.None? ==>
      f == restaurant.value.dto.(webSettings := Some(DefaultWebSettings))
  {
    match restaurant
    case None => RestaurantDto("", "", "", "", "", "", Some(DefaultWebSettings))
    case Some(r) =>
      var d := r.dto;
      RestaurantDto(
        OrElse(d.name, ""), OrElse(d.address, ""), OrElse(d.city, ""), OrElse(d.country, ""),
        OrElse(d.username, ""), OrElse(d.password, ""),
        if d.webSettings.Some? then d.webSettings else Some(DefaultWebSettings))
  }

  datatype RestaurantField =
    Name(s: string) | Address(s: string) | City(s: string) | Country(s: string)
    | Username(s: string) | Password(s: string)

  /** `{...prev, [name]: value}` for one text field. */
  function WithField(d: RestaurantDto, f: RestaurantField): (r: RestaurantDto)
    ensures r.webSettings == d.webSettings
    ensures f.Name? ==> r == d.(name := f.s)
    ensures f.Address? ==> r == d.(address := f.s)
    ensures f.City? ==> r == d.(city := f.s)
    ensures f.Country? ==> r == d.(country := f.s)
    ensures f.Username? ==> r == d.(username := f.s)
    ensures f.Password? ==> r == d.(password := f.s)
  {
    match f
    case Name(s) => d.(name := s)
    case Address(s) => d.(address := s)
    case City(s) => d.(city := s)
    case Country(s) => d.(country := s)
    case Username(s) => d.(username := s)
    case Password(s) => d.(password := s)
  }

  /** `{...prev, webSettings: {...prev.webSettings, [key]: value}}`: a missing settings
      object spreads as an empty one. */
  function WithWebSetting(d: RestaurantDto, key: string, value: string): (r: RestaurantDto)
    ensures r.webSettings.Some? && key in r.webSettings.value && r.webSettings.value[key] == value
    ensures d.webSettings.Some? ==> r.webSettings.value.Keys == d.webSettings.value.Keys + {key}
    ensures d.webSettings.Some? ==> forall k :: k in d.webSettings.value && k != key ==>
      r.webSettings.value[k] == d.webSettings.value[k]
    ensures d.webSettings.None? ==> r.webSettings.value.Keys == {key}
    ensures r == d.(webSettings := r.webSettings)
  {
    var ws := if d.webSettings.Some? then d.webSettings.value else map[];
    d.(webSettings := Some(ws[key := value]))
  }

  class RestaurantForm {
    var formData: RestaurantDto

    constructor (restaurant: Option<Restaurant>)
      ensures formData == InitialRestaurantForm(restaurant)
    {
      formData := InitialRestaurantForm(restaurant);
    }

    method HandleChange(field: RestaurantField)
      modifies this
      ensures formData == WithField(old(formData), field)
    {
      formData := WithField(formData, field);
    }

    method HandleWebSettingsChange(key: string, value: string)
      modifies this
      ensures formData == WithWebSetting(old(formData), key, value)
    {
      formData := WithWebSetting(formData, key, value);
    }

    /** The form's values as they stand, with no id. */
    method Submit() returns (submitted: Restaurant)
      ensures submitted == WithId(None, formData)
    {
      submitted := WithId(None, formData);
    }
  }

  /** Opening the form on a restaurant that has web settings and submitting it untouched
      gives the restaurant's values, but not its id. */
  lemma FormRoundTrip(r: Restaurant)
    requires r.dto.webSettings.Some?
    ensures WithId(None, InitialRestaurantForm(Some(r))) == r.(id := None)
  {
  }

  /** As written, updating a selected restaurant that has an id replaces its entry by a form
      object with no id, so afterwards no entry carries that id: selecting the entry again
      and saving sends `Number(undefined)`. */
  lemma {:induction false} UpdateLosesId(l: seq<Restaurant>, k: nat, form: RestaurantDto)
    requires k < |l| && l[k].id.Some?
    ensures var r := ReplaceById(l, l[k].id, WithId(None, form));
      |r| == |l| && r[k].id == None && CountId(r, l[k].id) == 0
  {
    ReplaceWithoutIdDropsId(l, l[k].id.value, form);
  }

  /** The update that merges the selected id back in, as the orders and menus pages do. */
  function MergedUpdate(l: seq<Restaurant>, selected: Restaurant, form: RestaurantDto)
    : (r: seq<Restaurant>)
    ensures |r| == |l|
    ensures CountId(r, selected.id) == CountId(l, selected.id)
    ensures forall i :: 0 <= i < |l| && l[i].id == selected.id ==> r[i] == WithId(selected.id, form)
    ensures forall i :: 0 <= i < |l| && l[i].id != selected.id ==> r[i] == l[i]
    ensures UniqueIds(l) && selected.id.Some? ==> UniqueIds(r)
  {
    ReplaceKeepsCount(l, selected.id, WithId(selected.id, form));
    var r := ReplaceById(l, selected.id, WithId(selected.id, form));
    if UniqueIds(l) && selected.id.Some? then
      ReplacePreservesUnique(l, selected.id.value, WithId(selected.id, form));
      r
    else r
  }
}

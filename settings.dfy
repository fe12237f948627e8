/** The settings page: the signed-in restaurant's own profile, edited in place, with a
    form that never shows the password and keeps the stored one unless a new one is typed. */
module Settings {
  import opened Common
  import opened Reconcile
  import opened Restaurants

  const ProfileLoadError: string :=
    "Falha ao carregar as informações do restaurante. Por favor, tente novamente."
  const NoRestaurantError: string :=
    "Não foi possível identificar o restaurante para atualização."
  const SettingsSaveError: string := "Falha ao salvar as configurações. Por favor, tente novamente."
  const SavedMessage: string := "Configurações salvas com sucesso!"

  class SettingsPage {
    var restaurant: Option<Restaurant>
    var loading: bool
    var saving: bool
    var error: Option<string>
    var success: Option<string>

    constructor ()
      ensures restaurant == None && loading && !saving && error == None && success == None
    {
      restaurant := None;
      loading := true;
      saving := false;
      error := None;
      success := None;
    }

    /** Loads the profile: skipped while signed out; a failure keeps what was held. */
    method FetchProfile(isAuthenticated: bool, reply: Reply<Restaurant>) returns (called: bool)
      modifies this`restaurant, this`loading, this`error
      ensures called == isAuthenticated
      ensures !called ==>
        restaurant == old(restaurant) && loading == old(loading) && error == old(error)
      ensures called ==> !loading
      ensures called && reply.Ok? ==> restaurant == Some(reply.value) && error == None
      ensures called && reply.Err? ==> restaurant == old(restaurant) && error == Some(ProfileLoadError)
    {
      called := isAuthenticated;
      if !isAuthenticated {
        return;
      }
      loading := true;
      if reply.Ok? {
        restaurant := Some(reply.value);
        error := None;
      } else {
        error := Some(ProfileLoadError);
      }
      loading := false;
    }

    /** Saves the settings. Without a held restaurant that has a truthy id, only the error is
        set and nothing is sent. Otherwise the success and error messages are cleared, the
        update is sent, and the saving flag ends false whatever the outcome: a success holds
        the submitted value and sets the success message, a failure keeps the held value and
        sets the error. */
    method SaveSettings(updated: Restaurant, reply: Reply<Restaurant>)
      returns (call: Option<Call<Restaurant>>)
      modifies this`restaurant, this`saving, this`error, this`success
      ensures var held := old(restaurant);
        if held.Some? && HasTruthyId(held.value)
        then call == Some(Update(held.value.id, updated))
        else call == None
      ensures call.None? ==>
        error == Some(NoRestaurantError) && restaurant == old(restaurant)
        && saving == old(saving) && success == old(success)
      ensures call.Some? ==> !saving
      ensures call.Some? && reply.Ok? ==>
        restaurant == Some(updated) && success == Some(SavedMessage) && error == None
      ensures call.Some? && reply.Err? ==>
        restaurant == old(restaurant) && success == None && error == Some(SettingsSaveError)
    {
      if restaurant.None? || !HasTruthyId(restaurant.value) {
        error := Some(NoRestaurantError);
        return None;
      }
      saving := true;
      success := None;
      error := None;
      call := Some(Update(restaurant.value.id, updated));
      if reply.Ok? {
        restaurant := Some(updated);
        success := Some(SavedMessage);
      } else {
        error := Some(SettingsSaveError);
      }
      saving := false;
    }
  }

  /** `formData.password || restaurant.password`: the typed password, or the stored one
      when none was typed. */
  function PasswordToSave(typed: string, stored: string): (p: string)
    ensures typed != "" ==> p == typed
    ensures typed == "" ==> p == stored
  {
    OrElse(typed, stored)
  }

  /** The values a settings form submits, given the restaurant the page holds at that moment
      and the form's current fields: everything as typed, id included, except that an empty
      password stands for the held one. */
  function SubmittedSettings(current: Restaurant, formData: Restaurant): (r: Restaurant)
    ensures r.id == formData.id
    ensures r.dto.(password := formData.dto.password) == formData.dto
    ensures r.dto.password == PasswordToSave(formData.dto.password, current.dto.password)
  {
    formData.(dto := formData.dto.(password := PasswordToSave(formData.dto.password, current.dto.password)))
  }

  /** The form's state. It stays mounted across saves, so its fields are not reset when the
      page's restaurant changes; the password fallback reads the page's restaurant anew. */
  class SettingsForm {
    var formData: Restaurant

    /** The form starts from the restaurant, id included, with the password blanked. */
    constructor (restaurant: Restaurant)
      ensures formData == restaurant.(dto := restaurant.dto.(password := ""))
    {
      formData := restaurant.(dto := restaurant.dto.(password := ""));
    }

    method HandleChange(field: RestaurantField)
      modifies this`formData
      ensures formData == old(formData).(dto := WithField(old(formData).dto, field))
    {
      formData := formData.(dto := WithField(formData.dto, field));
    }

    method HandleWebSettingsChange(key: string, value: string)
      modifies this`formData
      ensures formData == old(formData).(dto := WithWebSetting(old(formData).dto, key, value))
    {
      formData := formData.(dto := WithWebSetting(formData.dto, key, value));
    }

    /** The form's values with the password falling back to the one of `current`, the
        restaurant the page holds when the form is submitted. */
    method Submit(current: Restaurant) returns (submitted: Restaurant)
      ensures submitted == SubmittedSettings(current, formData)
    {
      submitted := formData.(dto := formData.dto.(
        password := PasswordToSave(formData.dto.password, current.dto.password)));
    }
  }

  /** Submitting the settings form untouched gives back the restaurant exactly, id and
      stored password included; unlike the restaurants page, the id is kept. */
  lemma UntouchedSubmitIsIdentity(r: Restaurant)
    ensures SubmittedSettings(r, r.(dto := r.dto.(password := ""))) == r
  {
  }

  /** Typing a password is the only way to change it: whatever else is edited, the submitted
      password is the typed one, or the stored one when nothing was typed. */
  lemma SubmittedPassword(r: Restaurant, edits: seq<RestaurantField>)
    ensures SubmittedSettings(r, ApplyEdits(r.(dto := r.dto.(password := "")), edits)).dto.password
      == if LastPassword(edits, "") != "" then LastPassword(edits, "") else r.dto.password
  {
    ApplyEditsPassword(r.(dto := r.dto.(password := "")), edits);
  }

  /** The form after a sequence of field edits. */
  function ApplyEdits(f: Restaurant, edits: seq<RestaurantField>): Restaurant
    decreases edits
  {
    if edits == [] then f else ApplyEdits(f.(dto := WithField(f.dto, edits[0])), edits[1..])
  }

  /** The password the last password edit typed, or `start` when there is none. */
  function LastPassword(edits: seq<RestaurantField>, start: string): string
  {
    if edits == [] then start
    else LastPassword(edits[1..], if edits[0].Password? then edits[0].s else start)
  }

  lemma {:induction false} ApplyEditsPassword(f: Restaurant, edits: seq<RestaurantField>)
    ensures ApplyEdits(f, edits).dto.password == LastPassword(edits, f.dto.password)
    ensures ApplyEdits(f, edits).id == f.id
    decreases edits
  {
    if edits != [] {
      ApplyEditsPassword(f.(dto := WithField(f.dto, edits[0])), edits[1..]);
    }
  }

  /** A password typed and saved becomes the fallback for the next save: type "p1" over a
      restaurant stored with "p0", save, clear the field and save again; the second save
      sends "p1". */
  method SecondSaveKeepsNewPassword(r: Restaurant) returns (first: Restaurant, second: Restaurant)
    requires HasTruthyId(r) && r.dto.password == "p0"
    ensures first.dto.password == "p1" && second.dto.password == "p1"
  {
    var page := new SettingsPage();
    var called := page.FetchProfile(true, Ok(r));
    var form := new SettingsForm(page.restaurant.value);
    form.HandleChange(Password("p1"));
    first := form.Submit(page.restaurant.value);
    var call := page.SaveSettings(first, Ok(first));
    form.HandleChange(Password(""));
    second := form.Submit(page.restaurant.value);
  }
}

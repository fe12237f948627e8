# Restaurant dashboard: state logic in Dafny

This project models the state logic of a Next.js dashboard that restaurant staff use to manage orders, menus and restaurant profiles. It covers the following parts:

- **Route guard** (`RouteGuard`). This is the edge middleware. It passes a request through or redirects it, based only on whether the `token` cookie is present and on the path. The `config.matcher` patterns decide which paths it runs on.
- **Entity pages** (`Orders`, `Menus`, `Restaurants`, `Settings`, and the shared `Reconcile`). Each page is a class:
  - Its fields are the React state: the local list, the selection, the mode flags and the error banner.
  - Each handler is a method that takes the outcome of its server call as a parameter (`Reply<T>`). It returns the call it issues, if any, as a value.
  - Reconciliation after a save has two forms. "Replace by id" is `Reconcile.ReplaceById`. "Append the created record" is `+ [reply.value]`.
  - The forms are classes too. Their field-by-field edits and their submit are methods.
- **Session store** (`Session`). This is the auth context: `user`, `token`, `isLoading` and `error`. It keeps them in step with the `auth_token` storage slot and with the generated REST client's global token (`ApiConfig.OpenApi`).
- **HTTP plumbing** (`HttpClient`). This is the axios client:
  - The request step attaches the bearer header.
  - The response step normalises errors and handles 401.
  - There is a second pair of such steps.
  - `authService` keeps the `token` storage slot.

Browser storage is a class over a map (`Storage.LocalStorage`). Navigation is returned as a value. The model keeps three token slots apart, as the program does:

- localStorage `auth_token`, used by the session store;
- localStorage `token`, used by the HTTP client;
- the `token` cookie, read by the guard.

JavaScript truthiness is written out in these places:

- An id counts only when it is present and non-zero (`Reconcile.HasTruthyId`).
- A string counts only when it is present and non-empty (`Common.Truthy`, `Common.OrElse`).

## Model

| member | source | states |
| RouteGuard.Middleware | src/middleware.ts:4-24 | registration always passes; a redirect goes to the login page only without the cookie on a dashboard path, and to the dashboard only with the cookie on an auth path |
| RouteGuard.Matched | src/middleware.ts:26-28 | every matched path starts with `/dashboard` or `/auth` |
| Storage.LocalStorage.GetItem | src/contexts/AuthContext.tsx:38 | a key's value when it is stored, nothing otherwise |
| Storage.LocalStorage.SetItem | src/lib/api/services.ts:15 | the key now holds the value; every other key is unchanged |
| Storage.LocalStorage.RemoveItem | src/lib/api/services.ts:38 | the key is gone; every other key is unchanged |
|---|---|---|
| RouteGuard.RegisterAlwaysPasses | src/middleware.ts:8-13 | `/auth/register` passes, with or without a token, both in the middleware and as routed |
| RouteGuard.NoTokenDashboardRedirects | src/middleware.ts:15-17 | without the cookie, every path starting with `/dashboard` redirects to `/auth/login` |
| RouteGuard.TokenAuthRedirects | src/middleware.ts:19-21 | with the cookie, every path starting with `/auth` other than `/auth/register` redirects to `/dashboard` |
| RouteGuard.RedirectCases | src/middleware.ts:4-24 | the middleware redirects if and only if one of the two cases above holds; every other request passes |
| RouteGuard.NoRedirectLoop | src/middleware.ts:15-21 | a redirect target is itself guarded, and with the same cookies the guard lets it through |
| RouteGuard.OnlyPresenceMatters | src/middleware.ts:5 | two cookie maps that agree on whether `token` is present get the same decision on every path |
| RouteGuard.Route | src/middleware.ts:26-28 | the middleware runs only on `/dashboard`, `/auth` and paths below them; every other path passes |
| RouteGuard.MatcherNarrowerThanPrefix | src/middleware.ts:26-28 | `/authors` would be redirected by the middleware but is never guarded, because the matcher is narrower than `startsWith` |
| RouteGuard.UnauthenticatedOrdersScenario | src/middleware.ts:15-17 | a visit to `/dashboard/orders` with no cookies is redirected to `/auth/login` |
| Reconcile.FindIndex | src/app/dashboard/orders/page.tsx:66 | `find` by id: `None` if and only if no entry has the id; otherwise the first entry with that id |
| Reconcile.ReplaceById | src/app/dashboard/orders/page.tsx:100-102 | `map` by id: length kept, every entry with the id becomes the new record, every other entry stays in place |
| Reconcile.ReplaceKeepsCount | src/app/dashboard/orders/page.tsx:100-102 | replacing by id with a record that carries the same id keeps the number of entries with that id |
| Reconcile.SaveKeepsOneEntryPerId | src/app/dashboard/orders/page.tsx:100-102 | saving an edit under its id to a list with one entry per id keeps one entry per id, and the saved id still names at most one entry |
| Reconcile.ReplacePreservesUnique | src/app/dashboard/menus/page.tsx:61-63 | with the id merged back, a list whose saved ids are unique still has unique ids after the update |
| Reconcile.ReplaceWithoutIdDropsId | src/app/dashboard/restaurants/page.tsx:56-58 | replacing by id with a record that has no id leaves no entry with that id |
| Reconcile.AppendPreservesUnique | src/app/dashboard/orders/page.tsx:105-108 | appending a created record whose id is new keeps ids unique and adds exactly one entry |
| Common.RemoveAt | src/app/dashboard/orders/page.tsx:513-517 | `splice(i, 1)` on a copy removes exactly the element at `i`: earlier elements stay, later ones shift down, and the multiset loses only that element |
| Orders.TranslateStatusSpec | src/app/dashboard/orders/page.tsx:152-164 | the label map covers exactly the seven statuses; each gets a distinct non-empty label that differs from the wire name; any other status is shown unchanged |
| Orders.TranslateStatus | src/app/dashboard/orders/page.tsx:152-164 | a status in the label map is shown as its label; any other status is shown unchanged |
| Orders.StatusColorClass | src/app/dashboard/orders/page.tsx:130-149 | a status gets a colour other than the grey default if and only if it is one of the seven known statuses |
| Orders.SetStatusById | src/app/dashboard/orders/page.tsx:81-83 | only the `status` of entries with the id changes; ids, other fields, other entries, order and length are kept |
| Orders.SetStatusOverrides | src/app/dashboard/orders/page.tsx:81-83 | a second status update of the same id overrides the first, so repeating one is idempotent |
| Orders.OrdersPage.constructor | src/app/dashboard/orders/page.tsx:14-19 | the page starts with an empty list, loading, no error, no selection and both flags down |
| Orders.OrdersPage.FetchOrders | src/app/dashboard/orders/page.tsx:22-40 | signed out, nothing happens. A success replaces the list and clears the error. A failure keeps the list and sets the load error. Loading ends false |
| Orders.OrdersPage.SelectOrder | src/app/dashboard/orders/page.tsx:43-47 | selecting opens the editor and closes the details view |
| Orders.OrdersPage.ViewOrderDetails | src/app/dashboard/orders/page.tsx:50-54 | viewing opens the details view and closes the editor |
| Orders.OrdersPage.Cancel | src/app/dashboard/orders/page.tsx:57-61 | the selection and both flags are cleared; the list and error stay |
| Orders.OrdersPage.StartEditing | src/app/dashboard/orders/page.tsx:197 | only `isEditing` is raised, so from the details view both flags end up set |
| Orders.OrdersPage.UpdateStatus | src/app/dashboard/orders/page.tsx:64-90 | an absent id sends no call, keeps the list and sets "Pedido não encontrado.". Otherwise the call carries the found record with only `status` replaced. On success the list becomes `SetStatusById` and the error clears; on failure the list stays and the status error is set |
| Orders.OrdersPage.SaveOrder | src/app/dashboard/orders/page.tsx:93-119 | a selection with a truthy id means an update, and the list becomes `ReplaceById` with the form plus that id. Otherwise a create, and the server's record is appended. Success closes the editor and the details view; failure keeps them and sets the save error |
| Orders.InitialOrderForm | src/app/dashboard/orders/page.tsx:491-497 | a new order starts as restaurant 1, customer 1, no items, total 0, PENDING. An existing order keeps its restaurant and customer when non-zero, else 1, and its status when non-empty, else PENDING; items and total as given. None of the three ever starts falsy |
| Orders.SubmittedOrder | src/app/dashboard/orders/page.tsx:539-551 | the submitted order is the form's fields unchanged, with the edited item lines and no id |
| Orders.OrderForm.constructor | src/app/dashboard/orders/page.tsx:491-501 | the fields come from `InitialOrderForm`, and the item lines from the order or an empty list |
| Orders.OrderForm.AddItem | src/app/dashboard/orders/page.tsx:504-510 | appends exactly `{menuItemId: 0, quantity: 1}` |
| Orders.OrderForm.RemoveItem | src/app/dashboard/orders/page.tsx:513-517 | the lines become `RemoveAt` of the old lines at the index |
| Orders.OrderForm.UpdateItem | src/app/dashboard/orders/page.tsx:520-527 | only the named field of the line at the index changes |
| Orders.OrderForm.Change | src/app/dashboard/orders/page.tsx:530-536 | only the named field of the order changes |
| Orders.OrderForm.Submit | src/app/dashboard/orders/page.tsx:539-551 | hands over `SubmittedOrder` of the current fields and lines |
| Orders.FormRoundTrip | src/app/dashboard/orders/page.tsx:491-501 | an order with a restaurant, a customer and a status, opened and submitted untouched, comes back as itself without its id |
| Orders.UntouchedSaveKeepsList | src/app/dashboard/orders/page.tsx:95-102 | saving an untouched form over a selected order with a truthy id leaves a unique-id list exactly as it was |
| Menus.MenusPage.constructor | src/app/dashboard/menus/page.tsx:14-18 | the page starts empty, loading, with no error and no selection |
| Menus.MenusPage.FetchMenus | src/app/dashboard/menus/page.tsx:21-39 | signed out, nothing happens. A success replaces the list and clears the error. A failure keeps the list and sets the load error |
| Menus.MenusPage.SelectMenu | src/app/dashboard/menus/page.tsx:42-46 | selects the menu and opens the editor |
| Menus.MenusPage.CancelEdit | src/app/dashboard/menus/page.tsx:48-51 | clears the selection and closes the editor |
| Menus.MenusPage.StartEditing | src/app/dashboard/menus/page.tsx:112 | opens the editor without touching the selection |
| Menus.MenusPage.SaveMenu | src/app/dashboard/menus/page.tsx:54-79 | a selection with a truthy id means an update, and the list becomes `ReplaceById` with the form plus that id. Otherwise a create, and the server's menu is appended. Success closes the editor; failure keeps list and selection and sets the save error |
| Menus.InitialMenuForm | src/app/dashboard/menus/page.tsx:186-194 | a new menu starts as restaurant 1, no name, type MENU, collapse 0, an empty section list. An existing menu keeps its name and collapse, its restaurant when non-zero (else 1), its type when non-empty (else MENU) and its sections when present; restaurant and type never start falsy |
| Menus.SubmittedMenu | src/app/dashboard/menus/page.tsx:272-284 | the submitted menu is the form's fields unchanged, with the edited sections and no id |
| Menus.InitialSections | src/app/dashboard/menus/page.tsx:196-200 | the editable sections are the menu's section list when it has one, else empty, and are the list the initial form holds |
| Menus.FormRoundTrip | src/app/dashboard/menus/page.tsx:186-200 | a menu with a restaurant, a type and sections, opened and submitted untouched, comes back as itself without its id |
| Menus.WithSectionField | src/app/dashboard/menus/page.tsx:226-233 | only the named field of a section changes; its id and items stay |
| Menus.WithItemField | src/app/dashboard/menus/page.tsx:256-263 | only the named field of an item changes; its id stays |
| Menus.MenuForm.constructor | src/app/dashboard/menus/page.tsx:186-200 | the fields come from `InitialMenuForm`, and the sections from the menu's section list or none |
| Menus.MenuForm.AddSection | src/app/dashboard/menus/page.tsx:203-212 | appends one empty, visible section with no items at position = old length; positions 0..n-1 stay 0..n |
| Menus.MenuForm.RemoveSection | src/app/dashboard/menus/page.tsx:215-223 | the section at the index goes, the others keep their order and content, and the renumbering loop leaves positions exactly 0..n-2 |
| Menus.MenuForm.UpdateSection | src/app/dashboard/menus/page.tsx:226-233 | only the named field of the section at the index changes |
| Menus.MenuForm.AddItem | src/app/dashboard/menus/page.tsx:236-246 | that section's items grow by the empty available item; other sections are untouched |
| Menus.MenuForm.RemoveItem | src/app/dashboard/menus/page.tsx:249-253 | that section's items lose exactly the item at the index; other sections are untouched |
| Menus.MenuForm.UpdateItem | src/app/dashboard/menus/page.tsx:256-263 | only the named field of one item of one section changes |
| Menus.MenuForm.Change | src/app/dashboard/menus/page.tsx:266-269 | only the named field of the menu changes |
| Menus.MenuForm.Submit | src/app/dashboard/menus/page.tsx:272-284 | hands over `SubmittedMenu` of the current fields and sections |
| Menus.CreateMenuScenario | src/app/dashboard/menus/page.tsx:64-70 | a new menu with one section "Drinks", stored by the server as id 42, ends up as the one list entry with that id and section |
| Restaurants.RestaurantsPage.constructor | src/app/dashboard/restaurants/page.tsx:9-13 | the page starts empty, loading, with no error and no selection |
| Restaurants.RestaurantsPage.FetchRestaurants | src/app/dashboard/restaurants/page.tsx:16-34 | signed out, nothing happens. A success replaces the list and clears the error. A failure keeps the list and sets the load error |
| Restaurants.RestaurantsPage.SelectRestaurant | src/app/dashboard/restaurants/page.tsx:37-41 | selects the restaurant and opens the editor |
| Restaurants.RestaurantsPage.CancelEdit | src/app/dashboard/restaurants/page.tsx:43-46 | clears the selection and closes the editor |
| Restaurants.RestaurantsPage.StartEditing | src/app/dashboard/restaurants/page.tsx:107 | opens the editor without touching the selection |
| Restaurants.RestaurantsPage.SaveRestaurant | src/app/dashboard/restaurants/page.tsx:49-74 | any selection means an update of its id, even an absent one. The list becomes `ReplaceById` with the submitted form verbatim. No selection means a create, and the server's record is appended. Success closes the editor; failure keeps it and sets the save error |
| Restaurants.InitialRestaurantForm | src/app/dashboard/restaurants/page.tsx:169-183 | missing text fields start as "" and missing web settings as the default palette; a restaurant with settings is copied as it is |
| Restaurants.WithField | src/app/dashboard/restaurants/page.tsx:185-188 | a text-field edit sets exactly the named field to the typed value and changes nothing else |
| Restaurants.WithWebSetting | src/app/dashboard/restaurants/page.tsx:190-199 | the key is set to the value, every other key keeps its value (a missing settings object counts as empty), and nothing else changes |
| Restaurants.RestaurantForm.constructor | src/app/dashboard/restaurants/page.tsx:169-183 | the form starts at `InitialRestaurantForm` |
| Restaurants.RestaurantForm.HandleChange | src/app/dashboard/restaurants/page.tsx:185-188 | the form becomes `WithField` of the edit |
| Restaurants.RestaurantForm.HandleWebSettingsChange | src/app/dashboard/restaurants/page.tsx:190-199 | the form becomes `WithWebSetting` of the edit |
| Restaurants.RestaurantForm.Submit | src/app/dashboard/restaurants/page.tsx:201-204 | hands over the form's values as they stand, with no id |
| Restaurants.FormRoundTrip | src/app/dashboard/restaurants/page.tsx:169-183 | a restaurant with settings, opened and submitted untouched, comes back as its values without its id |
| Restaurants.UpdateLosesId | src/app/dashboard/restaurants/page.tsx:57 | after an update of a restaurant with an id, no list entry carries that id |
| Restaurants.MergedUpdate | src/app/dashboard/restaurants/page.tsx:57 | the update with the id merged back keeps length, keeps the count of the id, keeps ids unique, and changes only the entries with that id |
| Settings.SettingsPage.constructor | src/app/dashboard/settings/page.tsx:14-18 | starts with no restaurant, loading, not saving and no messages |
| Settings.SettingsPage.FetchProfile | src/app/dashboard/settings/page.tsx:21-39 | signed out, nothing happens. A success holds the profile and clears the error. A failure keeps what was held and sets the load error |
| Settings.SettingsPage.SaveSettings | src/app/dashboard/settings/page.tsx:42-62 | with no held restaurant, or one without a truthy id, only the error is set and no call is made. Otherwise an update of that id clears both messages, and saving ends false. A success holds the submitted value and sets the success message; a failure keeps the held value and sets the save error |
| Settings.PasswordToSave | src/app/dashboard/settings/page.tsx:145-148 | a typed password wins; an empty one falls back to the stored password |
| Settings.SettingsForm.constructor | src/app/dashboard/settings/page.tsx:114-118 | the form is the restaurant with its id kept and its password blanked |
| Settings.SettingsForm.HandleChange | src/app/dashboard/settings/page.tsx:123-126 | one text field of the form changes |
| Settings.SettingsForm.HandleWebSettingsChange | src/app/dashboard/settings/page.tsx:129-138 | one web setting of the form changes |
| Settings.SubmittedSettings | src/app/dashboard/settings/page.tsx:141-151 | the form's values as typed, id included, with an empty password replaced by the password of the restaurant the page holds |
| Settings.SettingsForm.Submit | src/app/dashboard/settings/page.tsx:141-151 | hands over `SubmittedSettings` of the page's current restaurant and the form |
| Settings.SecondSaveKeepsNewPassword | src/app/dashboard/settings/page.tsx:42-62 | a password typed and saved becomes the fallback of the next save, since the mounted form reads the restaurant the save replaced |

| Settings.UntouchedSubmitIsIdentity | src/app/dashboard/settings/page.tsx:113-151 | submitting the form untouched gives back the restaurant exactly, id and stored password included |
| Settings.SubmittedPassword | src/app/dashboard/settings/page.tsx:113-151 | after any sequence of edits, the saved password is the last one typed, or the stored one when none was typed |
| Settings.ApplyEditsPassword | src/app/dashboard/settings/page.tsx:123-126 | after any sequence of field edits, the form's password is the last typed one and its id is unchanged |
| Session.AuthProvider.constructor | src/contexts/AuthContext.tsx:24-27 | no user, no token, loading, no error |
| Session.AuthProvider.IsAuthenticated | src/contexts/AuthContext.tsx:112 | authenticated exactly when a token is held and it is not empty |
| Session.AuthProvider.CheckAuth | src/contexts/AuthContext.tsx:36-59 | a non-empty stored `auth_token` becomes the held token and the client's token, with the demo user, and no call is made. Otherwise token, user and client token stay. Loading ends false |
| Session.AuthProvider.Login | src/contexts/AuthContext.tsx:65-97 | success stores the token in `auth_token` and holds it; the client gets it when it is non-empty; the user is named after the submitted username; the error is cleared; the result is the dashboard. Failure removes `auth_token`, clears token, user and client token, and sets the failure message. Loading ends false either way |
| Session.AuthProvider.Logout | src/contexts/AuthContext.tsx:100-106 | removes `auth_token`, clears token, user and client token, ends signed out, and returns `/login` |
| Session.LogoutTwice | src/contexts/AuthContext.tsx:100-106 | logging out twice leaves the same state as once |
| Session.RestoreAfterLogin | src/contexts/AuthContext.tsx:36-58 | after a successful login with a non-empty token, a fresh provider over the same storage restores an authenticated session |
| Session.LoginScenario | src/contexts/AuthContext.tsx:71-86 | signing in as "testuser" with the answer "fake-token" stores that token and leaves the user signed in under that name |
| Session.RepeatedFailures | src/contexts/AuthContext.tsx:87-93 | after one or more failed logins, no token is held, stored or given to the client |
| ApiConfig.OpenApi.SetAuthToken | src/services/api-config.ts:7-13 | a non-empty token becomes the global token; null or "" clears it |
| ApiConfig.OpenApi.SetBaseUrl | src/services/api-config.ts:19-21 | the base URL becomes the argument |
| ApiConfig.OpenApi.InitApiConfig | src/services/api-config.ts:26-37 | the base is always the fixed server. In a browser with a non-empty stored `auth_token`, that token becomes the global token; otherwise the token stays as it was |
| HttpClient.TokenSlotsDistinct | src/lib/api/services.ts:15 | the client's storage key differs from the session store's, and has the same name as the guard's cookie |
| HttpClient.BearerToken | src/lib/api/config.ts:23 | a bearer token read back from the headers is exactly what follows `Bearer ` in `Authorization` |
| HttpClient.WithBearer | src/lib/api/config.ts:21-25 | with a non-empty stored token the Authorization header is `Bearer <token>`; otherwise the headers are untouched; no other header changes |
| HttpClient.BearerIffToken | src/lib/api/config.ts:21-25 | a non-empty stored token yields `Bearer <token>`, which reads back as that token; otherwise the headers are untouched; no other header ever changes |
| HttpClient.BearerIdempotent | src/lib/api/services.ts:119-125 | running the second request step after the first changes nothing |
| HttpClient.AttachBearer | src/lib/api/config.ts:17-26 | the request's headers become `WithBearer` of the `token` slot |
| HttpClient.Normalize | src/lib/api/config.ts:50-54 | the message is the server's non-empty message, else the default, and is never empty; status and body are as received, and absent without a response |
| HttpClient.NormalizeIgnoresTransportMessage | src/lib/api/config.ts:50-54 | the transport's own message never reaches the rejection |
| HttpClient.HandleResponse | src/lib/api/config.ts:34-56 | a success passes through unchanged. A failure is rejected normalised. A 401 also removes `token` and returns `/auth/login`; any other outcome leaves storage alone and does not navigate |
| HttpClient.AuthErrorStep | src/lib/api/services.ts:128-137 | the same error is rejected again; `/login` is returned exactly on 401 |
| HttpClient.UnauthorizedTargetsDiffer | src/lib/api/services.ts:133 | the two 401 targets differ: `/auth/login` is guarded, `/login` is not |
| HttpClient.MessageOr | src/lib/api/services.ts:19 | the server's non-empty message, else the fallback |
| HttpClient.LoginErrorMessage | src/lib/api/services.ts:19 | a failed login's message is the server's when it sent a non-empty one, else "Erro ao fazer login"; never empty |
| HttpClient.RegisterErrorMessage | src/lib/api/services.ts:31 | the server's message, else the transport's, else "Erro ao criar conta"; never empty |
| HttpClient.AuthLogin | src/lib/api/services.ts:11-21 | success returns the response as received and stores its token in `token` only when it is non-empty. Failure gives `LoginErrorMessage` and leaves storage alone |
| HttpClient.AuthRegister | src/lib/api/services.ts:23-35 | posts the restaurant as given; success returns the restaurant inside the response; failure gives `RegisterErrorMessage`, which is never empty |
| HttpClient.IsAuthenticated | src/lib/api/services.ts:41-43 | signed in exactly when the `token` slot holds a non-empty string |
| HttpClient.AuthLogout | src/lib/api/services.ts:37-39 | only `token` is removed, and `isAuthenticated` is then false |
| HttpClient.LoginThenLogout | src/lib/api/services.ts:41-43 | a login with a non-empty token signs the service in, and logout signs it out |
| HttpClient.UnauthorizedKeepsSessionToken | src/lib/api/config.ts:46-49 | a 401 signs the service out and returns `/auth/login`, but leaves the session store's `auth_token` in place |

## Left out

- Rendering, styling, the theme objects, the details component's own copy of the status labels, and `console` logging. None of them decides any state.
- Money and prices are integers. The floating-point `total` and `price`, `parseFloat`/`parseInt`, and `NaN` from non-numeric input are not modelled. Currency and date formatting are not modelled either.
- Each handler is atomic: the `await` inside it is collapsed, and the server's answer is the `reply` parameter. Interleavings of two pending calls are not modelled. Neither is the intermediate `loading`/`saving = true` a render would show while a call is pending.
- The generated REST stubs (`OrdersService`, `MenusService`, `RestaurantsService`, `AuthService`) are not part of this model. Their outcome is the `reply` parameter of the handler that calls them.
- `restaurantService`, `menuService`, `orderService` and `addressService` in `src/lib/api/services.ts` are not modelled. Each is one call through the client with no logic of its own.
- The order in which axios chains the two pairs of interceptors is not modelled. Each step is stated on its own. Chained as registered, the second response step receives the already-normalised error, which has no `response`. Its 401 redirect then never fires, and `authService.login` always reports its default message.
- Cookie writing (`src/lib/api/auth.ts`) is not part of this model. The guard reads the cookie map it is given.
- `window.location`, `router.push` and `typeof window` are not modelled as effects. Navigation is a returned value, and "in a browser" is the `inBrowser` parameter of `ApiConfig.OpenApi.InitApiConfig`.
- The `useEffect` re-run of each fetch when `isAuthenticated` changes is not modelled. `isAuthenticated` is a parameter of each fetch method.
- Session.AuthProvider.CheckAuth: the `catch` branch (storage access throwing) is not modelled, because the storage model cannot throw.
- Menus.MenuForm.RemoveSection, Menus.MenuForm.AddItem, Menus.MenuForm.RemoveItem, Menus.MenuForm.UpdateItem: the source copies the section array shallowly and mutates the shared section and item objects. Such edits therefore also reach the page's list entry before any save. The model works on values, so that leak is not captured.
- Orders.OrderForm.Change, Menus.MenuForm.Change, Restaurants.RestaurantForm.HandleChange, Settings.SettingsForm.HandleChange: the form fields are listed one by one. An input whose `name` is not one of them, which the source would spread in as a new key, is not modelled.
- Orders.OrderForm.Change, Menus.MenuForm.Change: the source stores the customer id, the restaurant id and the collapse value as the input's strings (only the order total is parsed), and sends them so. The model stores the number the string denotes. A typed "0" is therefore a truthy string in the source but a falsy 0 here, so reopening such a form is not captured.
- Orders.TranslateStatus, Orders.TranslateStatusSpec: the label lookup in the source is a plain object, so a status named after an inherited member (`toString`, `constructor`, `valueOf`, `__proto__`) yields that member rather than the status. The model shows every status outside the seven unchanged.

## Findings

| source | as written | input that shows it | evidently intended | confidence | as-written member | corrected member |
|---|---|---|---|---|---|---|
| src/app/dashboard/restaurants/page.tsx:57 | updating a selected restaurant replaces its list entry by the submitted form, and the form has no id | list `[{id: 7, …}]`; select the entry and save any form with success: the entry no longer has id 7, so selecting it again and saving sends `Number(undefined)` | keep the selected id in the updated entry, as the orders and menus pages do | medium, not executed | Restaurants.UpdateLosesId | Restaurants.MergedUpdate |

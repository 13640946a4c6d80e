# passwordkeeper view controllers in Dafny

This project models the client-side state of three views of a
credential-manager page:

- the add / edit password form (`createForm`);
- the filter menu (`createMenu`);
- the password list (`createBrowsePasswords`).

The views reach each other through one shared `views` object. In the model
that object is the class `App.Views`. It holds:

- the current view;
- the log of requests handed to the AJAX transport;
- the list's `query` and its rendered cards;
- the menu's `active` identifier, its rendered buttons and the set of highlighted button classes;
- the two form objects, `add` and `edit` (class `EditAdd.Form`).

Each form object holds its password-generation settings (`genOptions`,
`genLength`, `genLengthMin`), its `pwd_id` (`pwdId`), and what it has
rendered: input values, toggle buttons marked `on`, and the decrease button's
enabled flag.

Every AJAX call appends a `Request(method, url)` to `requests`. The body of
its `.then` is a separate method that receives the server's response as
parameters:

- `App.Views.MenuLoaded` for the menu;
- `App.Views.BrowseLoaded` for the list;
- `EditAdd.Form.Loaded` for a form;
- `App.Views.SubmitDone` after a submit;
- `App.Views.DeleteDone` after a delete.

A click handler is a method that the click would run.

Modules:

- `Wrappers`: an `Option` type.
- `Strings`: decimal text of integers, as a template literal renders an integer id, with the parse that inverts it.
- `Records`: credential, organization and category records, and the value of `Number(user_id)`.
- `Http`: requests, and the id an item URL addresses.
- `EditAdd`: the form's modes, generation guards and rendered state.
- `Menu`: button construction, button classes and filter queries.
- `Browse`: list URL, cards and ownership gating.
- `App`: the shared state and every handler that crosses views.
- `Scenarios`: client methods whose assertions follow from the contracts alone: the end-to-end filter-and-delete story, the search freeze, the generation guards and the edit-target flow.

## Model

| member | source | states |
|---|---|---|
| `EditAdd.Form.constructor` | public/scripts/components/05_edit_add.js:6-13 | The form starts with options {lower, upper, digits}, length 10 = the floor 10, `pwd_id` -1, nothing rendered; the invariant (non-empty options, length at or above the floor) already holds |
| `App.Views.constructor` | public/scripts/components/03_menu.js:8 | The shared state starts with menu `active` = `all-pwd`, browse `query` = '', no buttons, no highlight, no cards; both forms are in their initial generation state |
| `EditAdd.SubmitMethod` | public/scripts/components/05_edit_add.js:18-20 | `PUT` exactly when the form id is `edit`, `POST` otherwise |
| `EditAdd.SubmitUrl` | public/scripts/components/05_edit_add.js:22-26 | In edit mode the URL is the item URL addressing exactly `pwd_id`; otherwise it is the bare collection `/api/passwords`, which addresses no item |
| `EditAdd.UpdateUrl` | public/scripts/components/05_edit_add.js:28-32 | In edit mode the user-info URL asks for exactly `pwd_id`; otherwise it is the bare `/api/users/myinfo` |
| `EditAdd.Form.Clear` | public/scripts/components/05_edit_add.js:37-40 | Empties all inputs and changes nothing else: options, length and `pwd_id` are untouched |
| `EditAdd.Form.SetDecreaseState` | public/scripts/components/05_edit_add.js:45-52 | The decrease button is enabled exactly when the form is rendered and the length is above its floor |
| `EditAdd.ChangedLength` | public/scripts/components/05_edit_add.js:193 | The new length is `max(len + n, min)`: never below the floor, never below `len + n`, and equal to one of them |
| `EditAdd.Form.ChangeGenLength` | public/scripts/components/05_edit_add.js:192-196 | Sets the length to `ChangedLength(old, n, 10)` and re-syncs the decrease button. It keeps the invariant, so the length stays at or above 10 and the button stays disabled exactly at 10 |
| `EditAdd.LengthStaysAboveFloor` | public/scripts/components/05_edit_add.js:192-193 | No sequence of length changes takes the length below the floor |
| `EditAdd.SingletonIff` | public/scripts/components/05_edit_add.js:206 | For an enabled option, the guard `size === 1` holds exactly when that option is the only one enabled |
| `EditAdd.Toggled` | public/scripts/components/05_edit_add.js:201-215 | An exact toggle. Every other option keeps its membership. `o` is enabled afterwards iff it was disabled or was the only option. A non-empty set stays non-empty |
| `EditAdd.ToggleTwice` | public/scripts/components/05_edit_add.js:201-215 | On a non-empty set, two clicks on the same option restore the set |
| `EditAdd.OptionsStayNonEmpty` | public/scripts/components/05_edit_add.js:205-207 | No sequence of toggle clicks empties a non-empty option set |
| `EditAdd.Form.SetGenOption` | public/scripts/components/05_edit_add.js:201-215 | On a rendered form the options become `Toggled(old, o)`. The invariant keeps the buttons marked `on` equal to the enabled options, so the branch on the button's class is a branch on membership. Before any rendering the option is only added |
| `EditAdd.ChoosePrefill` | public/scripts/components/05_edit_add.js:138 | `passwords ? passwords[0] : {}`: an absent list gives the empty record, a non-empty list gives its first record, and an empty list gives neither |
| `EditAdd.FieldsFor` | public/scripts/components/05_edit_add.js:138-148 | The inputs show the chosen record's name, URL, login and password; both other cases show empty inputs |
| `EditAdd.Form.Loaded` | public/scripts/components/05_edit_add.js:89-160 | Re-renders the form with the inputs taken from the choice of record. The decrease button and the `on` buttons are put back in line with the unchanged generation settings |
| `EditAdd.Form.Generate` | public/scripts/components/05_edit_add.js:175-179 | The password input of a rendered form receives `gen(genLength, genOptions)`, with the generator passed in; no other input changes |
| `App.Views.FormUpdate` | public/scripts/components/05_edit_add.js:87-89 | Issues exactly one `GET` of the form's update URL |
| `App.Views.Submit` | public/scripts/components/05_edit_add.js:67-74 | Issues exactly one request with the form's method and URL |
| `App.Views.SubmitDone` | public/scripts/components/05_edit_add.js:75-80 | Clears the inputs, then requests the menu's data, then the list, in that order, and shows `browse`. The generation settings and `pwd_id` are unchanged |
| `App.Views.Cancel` | public/scripts/components/05_edit_add.js:182-185 | Clears the inputs and shows `browse`, sending nothing and leaving the generation settings and `pwd_id` unchanged |
| `App.Views.SetActive` | public/scripts/components/03_menu.js:15-35 | The old highlight is removed. A non-empty argument is adopted, otherwise `active` is kept. At `search` nothing else happens. An `active` with no rendered button falls back to `all-pwd` and clears the query. Outside search, on a rendered menu, exactly `{active}` is highlighted |
| `App.Views.SetFilter` | public/scripts/components/03_menu.js:40-44 | Shows `browse`, sets the query, and issues one `GET` of `/api/passwords` followed by that query |
| `App.Views.MenuUpdate` | public/scripts/components/03_menu.js:59-61 | Issues exactly one `GET /api/users/myinfo` |
| `App.Views.MenuLoaded` | public/scripts/components/03_menu.js:61-116 | Replaces every button with a fresh rebuild and re-applies `setActive()`. Afterwards `active` is `search` or a rendered button, an `active` that vanished falls back to `all-pwd` with an empty query, and the list is requested with the resulting query |
| `App.Views.SetView` | public/scripts/components/03_menu.js:41 | Switches the shown view to the given name (called the same way at 03_menu.js:64, 04_browse.js:82 and 05_edit_add.js:79, 184) and changes nothing else: its frame is `current` alone |
| `App.Views.ClickMenuButton` | public/scripts/components/03_menu.js:63-111 | The add button only shows `add`. A filter button becomes `active` and its class is the only highlighted class, its query becomes the list's query, `browse` is shown and the list is requested |
| `Menu.BuildButtons` | public/scripts/components/03_menu.js:63-111 | The `forEach` loops produce exactly `MenuButtons(orgs, cats)`, the function that models the rebuilt button list: add, all, own, one button per organization, then one per category, in order |
| `Menu.MenuButtonIds` | public/scripts/components/03_menu.js:63-111 | The rendered classes are exactly {add-pwd, all-pwd, own-pwd}, plus `org-<id>` for each organization, plus `cat-<id>` for each category |
| `Menu.MenuButtonsConsistent` | public/scripts/components/03_menu.js:92-111 | Within a rebuild, a class determines its button and so its click action. No button is `search` or empty. `all-pwd` is always present, so the fallback always lands on a rendered button |
| `Menu.ClassOfInjective` | public/scripts/components/03_menu.js:93-105 | About `Menu.ClassOf`, which models the classes `all-pwd`, `own-pwd`, `org-${org_id}` and `cat-${cat_id}`: distinct filters (all, own, organization id, category id) get distinct button classes |
| `Menu.QueryOfInjective` | public/scripts/components/03_menu.js:70-109 | About `Menu.QueryOf`, which models the query strings at 03_menu.js:70, 77, 97 and 109: distinct filters send distinct queries: '', `?type=own`, `?type=org&val=<id>`, `?type=cat&val=<id>` |
| `Menu.ClassOfReserved` | public/scripts/components/03_menu.js:23 | No filter button's class is `add-pwd`, `search`, or the falsy empty string |
| `Browse.ListUrl` | public/scripts/components/04_browse.js:32 | The list URL is `/api/passwords` followed by exactly the query |
| `App.Views.BrowseUpdate` | public/scripts/components/04_browse.js:31-32 | Issues exactly one `GET` of the list URL for the current query |
| `Browse.OwnActions` | public/scripts/components/04_browse.js:60-65 | Edit and delete are enabled iff `Number(user_id)` is a number equal to `creator_id`; a NaN user id disables them on every card |
| `Browse.RenderCards` | public/scripts/components/04_browse.js:33-36 | One card per credential in response order, each gated by ownership |
| `App.Views.BrowseLoaded` | public/scripts/components/04_browse.js:32-37 | Old cards are discarded; the new cards are exactly one per credential returned, in order, with edit and delete enabled iff owned |
| `App.Views.EditCard` | public/scripts/components/04_browse.js:80-83 | Sets the edit form's `pwd_id` to the card's credential id and shows `edit`, issuing no request |
| `Browse.DeleteUrl` | public/scripts/components/04_browse.js:88 | The delete URL addresses exactly the card's credential |
| `App.Views.DeleteCard` | public/scripts/components/04_browse.js:85-88 | Issues exactly one `DELETE` of the credential's item URL |
| `App.Views.DeleteDone` | public/scripts/components/04_browse.js:89-92 | Requests the menu's data and then the list, in that order |
| `App.Views.GoTo` | public/scripts/components/04_browse.js:70 | Yields opening the credential's site URL and changes no view state |
| `App.Views.CopyLogin` | public/scripts/components/04_browse.js:72-74 | Yields writing the login to the clipboard and changes no view state |
| `App.Views.CopyPassword` | public/scripts/components/04_browse.js:76-78 | Yields writing the password to the clipboard and changes no view state |
| `Strings.ParseIntToString` | public/scripts/components/03_menu.js:93 | About `Strings.IntToString`, which models template-literal interpolation of an integer id: reading back the text of an integer id gives that id |
| `Strings.ToStringParseInt` | public/scripts/components/03_menu.js:105 | Every text the parse accepts is the text of the id it yields. The text of an id is therefore its unique decimal form |
| `Strings.IntToStringInjective` | public/scripts/components/04_browse.js:88 | Distinct ids have distinct texts |
| `Http.ItemUrlAddresses` | public/scripts/components/04_browse.js:88 | `/api/passwords/<id>` addresses exactly credential `id` |
| `Http.InfoUrlAddresses` | public/scripts/components/05_edit_add.js:30 | `/api/users/myinfo?id=<id>` asks for exactly credential `id` |

## Left out

- The jQuery markup and the helpers that build it (`$select`, `$input`, `$button`, `$btnIcon`, `$btnIconText`, `$numberPicker`) are not defined in the modelled files. What they render is modelled only as:
  - button classes;
  - the highlight set;
  - the `on` toggles;
  - the decrease button's enabled flag;
  - the four text inputs.
- `$input` is assumed to show the record's field, or an empty value when the field is absent. `EditAdd.FieldsFor` shows empty inputs for the `undefined` that an empty `passwords` list yields. What `$input` really does with `undefined` is not part of this model.
- The organization and category `<select>` fields are not modelled, and neither are the Reset button and `serialize()` of the fields.
- The length shown in the number picker is not modelled. After a re-render the picker receives `genLengthMin`, not `genLength` (05_edit_add.js:127), so the display can disagree with the stored length. `$numberPicker` is not part of this model, so its meaning is not known here.
- `genPassword` is not part of this model. `EditAdd.Form.Generate` takes the generator as a function parameter. No alphabet and no per-class guarantee are assumed.
- The views registry (`setView`, `append`, the registration in each `init`) is not part of this model. `setView(name)` only sets `current`; whatever else the registry does on a switch is not modelled. The `init` methods are left out; the constructors give the initial field values, and the initial `update` calls are `MenuUpdate` and `BrowseUpdate`.
- The AJAX transport, asynchronous ordering and stale responses are not modelled. Each request is recorded in order, and its `.then` body runs when the caller invokes it. Failed requests run no `.then` body.
- `window.open` and `navigator.clipboard` are represented only by the `External` value the go-to and copy handlers return.
- `Number(user_id)` is taken as already converted: the list handler receives a `JsNumber` (an integer or NaN). JavaScript's string-to-number rules are not modelled.
- `Strings.IntToString` writes integer ids in exact plain decimal. Ids are JavaScript numbers, and the two texts agree for every safe integer (magnitude at most 2^53 - 1, `Number.MAX_SAFE_INTEGER`). For some larger numbers JavaScript prints the shortest digits that read back to the same number, padded with zeros (2^60 prints as 1152921504606847000), and from 10^21 on it uses exponent notation. Ids are assumed to be safe integers, so for larger ids `Menu.ClassOf`, `Menu.QueryOf`, `EditAdd.SubmitUrl`, `EditAdd.UpdateUrl` and `Browse.DeleteUrl` describe text the program does not build.
- The browser not dispatching clicks on disabled buttons is not modelled. `App.Views.EditCard` and `App.Views.DeleteCard` run for any card, as the listeners are attached to every card.
- CSS class selectors are modelled as exact class membership. Every class the menu looks up has the form `add-pwd`, `all-pwd`, `own-pwd`, `org-<id>`, `cat-<id>`, or `search`, which never names a button. A stale `active` looked up at 03_menu.js:26 may match no rendered button; that is the fallback case.
- Highlighting is by class: a response that lists the same `org_id` or `cat_id` twice renders two identical buttons, and they are highlighted together, as the class selector at 03_menu.js:34 matches both.
- `setActive()` with no argument and `setActive('')` are both falsy in JavaScript. Both are modelled as `App.Views.SetActive("")`.
- Free-text search, which sets `active` to `search`, lives outside the modelled files. `App.Views.SetActive(Search)` stands for it.
- Two details that the model takes from the code as written: while searching, `setActive` still removes the old highlight (03_menu.js:17), and the punctuation toggle is named `punct` (05_edit_add.js:117).

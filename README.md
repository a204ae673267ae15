# Science portal launch controller — a Dafny model

This project models `PortalApp`, the browser-side controller of the CANFAR
science portal launch page. The page lists a user's remote compute sessions
(notebook, desktop, CARTA and others) and offers a form to launch new ones.
The model keeps the controller's decisions and leaves out the markup:

- the controller state: the polling flag `isPolling` and the session type
  catalog `_sessionTypeMap`;
- the session-list handlers: list done, list error, polling continue, poll
  ended;
- the launch form: which form groups a session type shows, how drop-downs
  are filled (type, software stack, cores, RAM), and the reset to the default
  type;
- how the session POST and the image and context GETs settle for each HTTP
  status, and how a failed list load is classified;
- what each item of the session list shows: a blocking overlay and its text,
  the icon, and the data the connect and delete controls carry.

Files:

- `wrappers.dfy`: `Option`.
- `launch_form.dfy` (module `LaunchForm`): the catalog types and the
  drop-down options, plus the specification functions for populated
  drop-downs, hidden groups and reset, with lemmas about them.
- `session_list.dfy` (module `SessionList`): `Session`, the overlay, the icon
  choice, the list item, with lemmas.
- `dispatch.dfy` (module `Dispatch`): finished requests (`Response`,
  holding status and response text), promise outcomes
  (`Resolved | Rejected | NeverSettles`), the settle rules and the 403 rule.
- `portal_app.dfy` (module `PortalController`): class `PortalApp`. It has
  two kinds of fields. `isPolling` and `sessionTypeMap` are the controller's
  own state. `page` (session list, form shown, hidden groups, drop-downs,
  alerts raised) and `calls` (a log of calls to the session and core
  services and the network) record the effects. Each handler is a method
  whose `ensures` gives the new `page` and `calls` in terms of the old ones
  and the specification functions. `Valid()` is the class invariant, and
  every method keeps it.

The model follows the code as written, including three places where the
code does not do what its own comments and names suggest:

- The list-done handler (`science_portal.js:100-119`) carries the comments
  "so only one instance is running at a time" (lines 101-102) and "If
  everything is stable, stop. If no, kick off polling" (line 105). Line 103
  compares `isPolling` with `true` but never assigns it. Line 119 then sets
  it back to `false` before the poll has ended. So the flag is always
  `false`: `Valid()` contains `!isPolling`, and `OnLoadSessionListDone`
  proves that every list-done event requests `pollSessionList(1000)`. The
  client method `PortalController.RepeatedListDoneRequestsRepeatedPolls`
  shows that two list-done events in a row request two polls. Whether a
  stable list stops the poll at once is decided inside `pollSessionList`,
  which is not part of this model.
- The session POST settles only for statuses 200 and 400. For any other
  status the promise never resolves or rejects, so no error is shown.
- `populateSelect` always adds its placeholder, because it tests a variable
  (`optionalDefault`) that is never defined.

JavaScript's loose equality (`==`, `!=`) at lines 108, 186, 325 and 641 is
modelled as string equality. Core counts and RAM sizes are kept as their text.

## Model

| member | source | states |
|---|---|---|
| `LaunchForm.PlaceholderOption` | src/main/webapp/js/science_portal.js:316-319 | the placeholder option: empty value, selected and disabled, showing the placeholder text |
| `LaunchForm.ChoiceFor` | src/main/webapp/js/science_portal.js:323-329 | the option for one entry: value = optionID, text = name, selected iff optionID equals the default ID |
| `LaunchForm.SelectOptions` | src/main/webapp/js/science_portal.js:310-331 | a filled drop-down: the placeholder, then the option for each entry, in order |
| `LaunchForm.TypeOptions` | src/main/webapp/js/science_portal.js:490-494 | one entry per catalog type, in order, with name and ID the type name |
| `LaunchForm.ImageOptions` | src/main/webapp/js/science_portal.js:524-528 | one entry per image, in order, with name and ID the image id |
| `LaunchForm.ValueOptions` | src/main/webapp/js/science_portal.js:586-597 | one entry per available core count or RAM size, in order, with name and ID the value |
| `LaunchForm.TypeSelect` | src/main/webapp/js/science_portal.js:496 | the type drop-down: placeholder "select type", the type entries, the catalog default as default |
| `LaunchForm.ImageSelect` | src/main/webapp/js/science_portal.js:530 | the stack drop-down: placeholder "select stack", the image entries, the first entry's name as default |
| `LaunchForm.CoresSelect` | src/main/webapp/js/science_portal.js:591 | the cores drop-down: placeholder "select # cores", the core entries, `defaultCores` as default |
| `LaunchForm.MemorySelect` | src/main/webapp/js/science_portal.js:598 | the RAM drop-down: placeholder "select RAM", the RAM entries, `defaultRAM` as default |
| `LaunchForm.FormListFor` | src/main/webapp/js/science_portal.js:284-290 | the form fields of the first type named as requested, or the empty list when none is |
| `LaunchForm.HiddenFields` | src/main/webapp/js/science_portal.js:294-300 | the launch groups not in that form list |
| `LaunchForm.ResetSelection` | src/main/webapp/js/science_portal.js:640-646 | every option of the type drop-down kept, with its selected flag set iff its value is the default type |
| `LaunchForm.SelectOptionsShape` | src/main/webapp/js/science_portal.js:310-331 | a filled drop-down is the disabled, selected placeholder followed by exactly one option per entry in input order, with value = optionID and text = name; an entry's option is selected iff its optionID equals the default ID |
| `LaunchForm.SelectOptionsSnoc` | src/main/webapp/js/science_portal.js:322-330 | one more entry appends exactly that entry's option to the drop-down |
| `LaunchForm.AtMostOneSelected` | src/main/webapp/js/science_portal.js:322-330 | when option IDs are distinct, at most one entry option is selected |
| `LaunchForm.TypeSelectMirrorsCatalog` | src/main/webapp/js/science_portal.js:490-496 | the type drop-down has one option per catalog type, in catalog order, with value and text equal to the type name; it is selected iff the name is the catalog default |
| `LaunchForm.ContextSelectsMirrorResources` | src/main/webapp/js/science_portal.js:586-598 | the cores and RAM drop-downs mirror `availableCores` and `availableRAM` one-to-one and in order; `defaultCores` and `defaultRAM` mark the selected options |
| `LaunchForm.ImageSelectDefaultsToFirst` | src/main/webapp/js/science_portal.js:521-530 | a non-empty image list gives one option per image id, in order; the first image is selected; with distinct ids no other image is |
| `LaunchForm.FirstMatch` | src/main/webapp/js/science_portal.js:285-290 | returns the index of the first catalog type whose name is the requested type, or nothing iff no type has that name |
| `LaunchForm.FieldVisibilityRule` | src/main/webapp/js/science_portal.js:282-300 | each of the five launch groups `name,type,image,memory,cores` is shown iff it appears in `form_fields` of the first type named as requested |
| `LaunchForm.NoMatchHidesAll` | src/main/webapp/js/science_portal.js:284-300 | when no catalog type has the requested name, all five groups are hidden |
| `LaunchForm.ResetAfterTypeSelect` | src/main/webapp/js/science_portal.js:640-646 | resetting the type drop-down that was filled from the catalog leaves every type option as it was filled; only the placeholder loses its selection, unless the default is the empty string |
| `LaunchForm.ResetIdempotent` | src/main/webapp/js/science_portal.js:640-646 | resetting the selection twice gives the same result as resetting once |
| `SessionList.Overlay` | src/main/webapp/js/science_portal.js:186-192 | a session has a blocking overlay iff its status is not `Running`; the overlay's text is the status |
| `SessionList.IconKindFor` | src/main/webapp/js/science_portal.js:235-250 | the session gets the Jupyter logo iff its type is `notebook`, the desktop glyph iff `desktop`, the CARTA logo iff `carta`, and the cube glyph iff it is none of the three |
| `SessionList.IconElementsDistinct` | src/main/webapp/js/science_portal.js:235-251 | different icon kinds are drawn as different elements for every base URL |
| `SessionList.IconElement` | src/main/webapp/js/science_portal.js:235-251 | the element drawn for each icon kind: the Jupyter or CARTA logo image below the base URL, or the desktop or cube glyph, with their CSS classes |
| `SessionList.ViewOf` | src/main/webapp/js/science_portal.js:175-263 | the list item for one session: overlay, title, delete button data, connect anchor data, icon and type label |
| `SessionList.SessionOf` | src/main/webapp/js/science_portal.js:223-226 | the session an item stands for: id, name, status and connect URL from the anchor's data, the type from the visible label |
| `SessionList.RenderSessions` | src/main/webapp/js/science_portal.js:173-264 | the item for each session, in order |
| `SessionList.RenderedItemsFaithful` | src/main/webapp/js/science_portal.js:173-264 | the list has one item per session, in order; each item stores its session's connect URL, status, id and name in its controls (the delete button holds id and name) and shows its type; it is blocked, showing the status, iff that session is not Running |
| `SessionList.ViewSeparatesTypesAndStatus` | src/main/webapp/js/science_portal.js:186-251 | two items with the same icon and overlay have types of the same icon kind, and if either is blocked they have the same status |
| `Dispatch.FormGet` | src/main/webapp/js/science_portal.js:445 | returns the value of the first form entry with the key, or nothing iff no entry has that key |
| `Dispatch.SettlePost` | src/main/webapp/js/science_portal.js:441-448 | the POST resolves iff the status is 200, and then with the name and type from the submitted form; it rejects with the request iff the status is 400; for every other status it never settles |
| `Dispatch.PostIgnoresResponseText` | src/main/webapp/js/science_portal.js:441-448 | the response text does not affect the POST's outcome, except as part of the request that a 400 rejects with |
| `Dispatch.SettleGet` | src/main/webapp/js/science_portal.js:553-558 | once the request has loaded, a GET resolves with the parsed response text iff the status is 200 and rejects with the request otherwise, so it always settles |
| `Dispatch.SettleImageList` | src/main/webapp/js/science_portal.js:553-558 | the image list GET follows the GET rule |
| `Dispatch.SettleCurrentContext` | src/main/webapp/js/science_portal.js:615-620 | the context GET follows the GET rule |
| `Dispatch.ClassifyListError` | src/main/webapp/js/science_portal.js:129-134 | a failed session-list load is an authorization issue iff its status is 403, and a generic ajax failure otherwise |
| `PortalController.LaunchFormCalls` | src/main/webapp/js/science_portal.js:503-507 | the calls made when the form is set up for a type: image list, context, default name, in that order |
| `PortalController.RepeatedListDoneRequestsRepeatedPolls` | src/main/webapp/js/science_portal.js:100-119 | two list-done events in a row from a fresh controller request two polls |
| `PortalController.PortalApp.constructor` | src/main/webapp/js/science_portal.js:32-43 | starts with `isPolling` false, no catalog, an empty page and no calls made |
| `PortalController.PortalApp.OnServiceURLFail` | src/main/webapp/js/science_portal.js:87-92 | appends one page-unavailable alert and changes nothing else |
| `PortalController.PortalApp.CheckForSessions` | src/main/webapp/js/science_portal.js:334-341 | requests the session list exactly once |
| `PortalController.PortalApp.OnServiceURLOK` | src/main/webapp/js/science_portal.js:80-85 | once the service URLs are known, hands them to the session module and then requests the session list exactly once |
| `PortalController.PortalApp.PopulateSessionList` | src/main/webapp/js/science_portal.js:157-269 | replaces the session list with one item per session, in order, and leaves the rest of the page alone |
| `PortalController.PortalApp.OnLoadSessionListDone` | src/main/webapp/js/science_portal.js:94-122 | repaints the list and requests `pollSessionList(1000)` on every call; `isPolling` is false before and after |
| `PortalController.PortalApp.OnPollSettled` | src/main/webapp/js/science_portal.js:107-117 | when the poll ends, repaints the list iff the final state is `done`; a failed poll appends one session-list error |
| `PortalController.PortalApp.OnPollingContinue` | src/main/webapp/js/science_portal.js:137-140 | at each polling tick, repaints the list with the current sessions |
| `PortalController.PortalApp.OnLoadSessionListError` | src/main/webapp/js/science_portal.js:124-135 | appends one list-load alert carrying the classification (403 or other) and the request |
| `PortalController.PortalApp.HandleDeleteSession` | src/main/webapp/js/science_portal.js:401-405 | asks the session service to delete exactly the session id it was given |
| `PortalController.PortalApp.OnSessionDeleteOK` | src/main/webapp/js/science_portal.js:148-151 | a successful delete requests the session list exactly once |
| `PortalController.PortalApp.PopulateSelect` | src/main/webapp/js/science_portal.js:310-331 | replaces the named drop-down with the placeholder and one option per entry, and changes no other drop-down |
| `PortalController.PortalApp.SetFormFields` | src/main/webapp/js/science_portal.js:282-302 | the hidden groups become exactly the launch groups that the first matching catalog type does not list |
| `PortalController.PortalApp.LoadContainerImages` | src/main/webapp/js/science_portal.js:511-516 | requests the image list for the given type |
| `PortalController.PortalApp.LoadContext` | src/main/webapp/js/science_portal.js:571-581 | requests the context resources |
| `PortalController.PortalApp.SetSessionName` | src/main/webapp/js/science_portal.js:277-280 | asks the session module for a default name for the type |
| `PortalController.PortalApp.SetLaunchFormForType` | src/main/webapp/js/science_portal.js:503-509 | requests images for the type, then the context, then a default name, in that order, and shows the type's groups |
| `PortalController.PortalApp.HandleAddSession` | src/main/webapp/js/science_portal.js:389-396 | requests the type catalog and shows the launch form |
| `PortalController.PortalApp.OnTypeMapLoaded` | src/main/webapp/js/science_portal.js:481-501 | stores the catalog, fills the type drop-down from it with the default marked, and sets the form up for the default type |
| `PortalController.PortalApp.OnTypeChanged` | src/main/webapp/js/science_portal.js:65-67 | picking a type sets the form up for that type |
| `PortalController.PortalApp.OnImageListResponse` | src/main/webapp/js/science_portal.js:516-542 | status 200 with a non-empty list fills the stack drop-down with the first image as default; status 200 with an empty list appends "no images found"; any other status appends an image-loading problem |
| `PortalController.PortalApp.OnContextResponse` | src/main/webapp/js/science_portal.js:581-604 | status 200 fills the cores and RAM drop-downs; any other status appends a context problem and an ajax error |
| `PortalController.PortalApp.HandleResetFormState` | src/main/webapp/js/science_portal.js:633-650 | marks exactly the options whose value is the default type and sets the form up for the default type; with no catalog loaded, changes nothing |
| `PortalController.PortalApp.HandleSessionRequest` | src/main/webapp/js/science_portal.js:415-422 | posts exactly the submitted form |
| `PortalController.PortalApp.OnSessionRequestOK` | src/main/webapp/js/science_portal.js:142-146 | hides the launch form and requests the session list exactly once |
| `PortalController.PortalApp.OnSessionRequestResponse` | src/main/webapp/js/science_portal.js:422-431 | status 200 hides the form and requests the session list exactly once; status 400 appends one ajax error and makes no call; any other status changes nothing |

## Left out

- Markup and presentation: the jQuery element construction, CSS classes
  other than the hidden groups, and the text and buttons of `setInfoModal`,
  `setProgressBar`, `hideInfoModal` and `clearAjaxAlert`. The model keeps
  each decision as a value: a list item, an option, an alert or a hidden
  group.
- `PortalCore` and `PortalSession` are not part of this model. This
  covers `setServiceURLs`, `loadSessionList`, `pollSessionList`, `getSessionList`,
  `getDefaultSessionName`, `deleteSession`, `isRunningSession`,
  `getRcDisplayText`, `checkAuthentication` and `handleAjaxError`. The model
  records each call in `calls`, or each report in `page.alerts`. What these
  calls return enters the model as a method parameter: the session list, the
  poll's result, the finished request.
- The stability test that decides whether a poll ends `done` is inside
  `pollSessionList`, so the model does not say when polling stops.
- The default session name that `setSessionName` writes into the name field
  comes from `PortalSession`, so it is not modelled; only the call is.
- Event-bus subscription (`init`, `attachListeners`, `portalCore.subscribe`
  and `trigger`) and promise asynchrony are left out. Each handler is one
  synchronous method. A request's completion is a separate method that can
  be called at any time, so the model does not pair responses with the
  requests that caused them.
- The XMLHttpRequest transport, `withCredentials`, `gatherFormData`
  (`serializeArray` and `FormData`) and `parseJSONStr` are browser and
  network APIs. A finished request is given as its status and response text,
  form data as its entry list, and the JSON parser as a function parameter.
  A parsed value therefore always has the expected shape. So a callback that
  fails on a malformed body and falls into the promise's `catch` is not
  modelled.
- `handleConnectRequest` and `handlePageRefresh` are left out. They consist
  of `window.open`, `window.location.reload`, and a running test that lives
  in `PortalSession`.
- `setSelectedType` (lines 304-308) is dead code that refers to an
  undefined `selectID`. The unused `cores` at line 523 is also left out.
- `populateSelect` marks options with the `selected` property, and the reset
  uses the `selected` attribute. The model treats both as one flag. It does
  not model which option a browser displays when the placeholder and a
  default option are both marked.
- JavaScript's loose equality between numbers and strings is not modelled.
  Every compared value is a string.
- Requests that never load: the POST and both GETs settle only inside their
  `load` listeners (lines 438-451, 550-561, 612-623). A request that ends in
  a network error, an abort or a timeout never fires `load`, so its promise
  stays pending for ever and the busy message of `loadContainerImages` or
  `loadContext` is never hidden. The model takes only loaded requests
  (`Response`), so it says nothing about that case.
- The connect and delete handlers read a list item's data back through
  jQuery's `.data()` (lines 353 and 402). This converts a numeric-looking id
  into a number. The model keeps every stored value as a string.

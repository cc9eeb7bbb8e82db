# CRUD admin front end: request builders, list views, forms and the inactivity logout

This project models the rule-bearing core of a React admin panel for film
posters, employees, clients, users, roles and contact enquiries, and proves
properties of that model in Dafny. Each module follows one source file:

- `Services` covers the API service layer. It models the query strings of the
  poster and employee listings, the `position_number` renumbering of the
  poster reorder payload, and the two multipart bodies that update a poster.
- `Pagination` holds what the list views share. It models the Laravel-style
  envelope, how a bare array becomes a one-page envelope, and the row serial
  numbers. It also models when page links show and are enabled, the `page`
  query parameter (`Number(...) || 1`), and what a click on a page link yields.
- `ListControls` is the search box and page parameter of the user, client and
  contact-enquiry lists. It is a state machine over the refs `isFirstRender`
  and `prevSearchTerm`, with the 500 ms debounce timer turned into a "timer
  fired" event. It records every listing request as a `Query(page, search)`.
  It holds both the behaviour as written (`TypeAsWritten`,
  `StepClientsAsWritten`) and the evidently intended one (`Type`, `Step`).
  The view classes follow the code as written.
- `UserList`, `ClientsList`, `ContactEnquiries`, `EmployeeList` and
  `RolesList` are the list views as classes. Their fields are the components'
  state, and their methods are the handlers and the fetches settling.
  `ContactEnquiries` also models the four-way unwrap of an untyped JSON
  response. `RolesList` models the in-browser role filter and the local
  delete.
- `EmployeeCreate`, `UserCreate`, `ClientCreate`, `ClientEdit` and
  `RolesCreate` are the forms. They model the defaults, `handleChange`, the
  2 MiB file limit, the validation order, the payload sent, what is reset
  after success, the parent callbacks, and the `submitting` flag.
- `AutoLogout` models the inactivity timer. It shows that a timer is armed
  only with a token away from `/`, that each reset clears the previous timer
  first, and therefore that at most one logout timer is ever pending.
- `Common` holds the JavaScript semantics the rest relies on. These are
  truthiness, `||` fallbacks, `Number()` on digit strings, ASCII case mapping,
  `includes`, and `FormData` / `URLSearchParams` as ordered key/value lists
  whose `get` returns the first match.

I/O is made explicit:

- Every awaited remote call is an input `Remote<R>`: either `Succeeded(body)`
  or `Failed(serverMessage)`.
- `window.confirm`, the page parameter extracted by `new URL(...)`, the
  `parseInt` result, `URL.createObjectURL` and the token read from
  `localStorage` are also inputs.
- Toasts become a `notice` field.
- Navigation and the parent callbacks are returned or recorded in order.

## Model

| member | source | states |
|---|---|---|
| Common.FailureText | src/features/auth/RolesList.tsx:77 | the toast text is the server's message when it is a non-empty string and the fixed fallback otherwise |
| Common.NumberOf | src/features/auth/UserList.tsx:33 | `Number(s)` is defined exactly for "", digit strings and signed digit strings; "" reads as 0 |
| Common.NumberOfDecimalString | src/features/auth/UserList.tsx:33 | reading back the decimal text of any integer gives that integer |
| Common.FieldText | src/features/emlpoyee/EmployeeCreate.tsx:73-76 | appending a form field sends its value, or the text "undefined" when the field is missing |
| Common.FormData.Append | src/features/emlpoyee/EmployeeCreate.tsx:72-77 | `FormData.append` adds one entry at the end and keeps every earlier entry |
| Common.SearchParams.Append | src/services/AllServices.ts:75-78 | `URLSearchParams.append` adds one parameter at the end and keeps every earlier one |
| Services.GetAllPosters | src/services/AllServices.ts:67-80 | the poster query has `page` first, `search` exactly when the term is non-empty, and `year` exactly when it is non-empty and not "All"; keys are distinct and there are no others |
| Services.GetAllEmployees | src/services/AllServices.ts:236-246 | the employee query has `page` first and `search` exactly when the term is non-empty, with no other keys |
| Services.UpdatePosterOrder | src/services/AllServices.ts:127-138 | the reorder request is a PUT to `/film-poster-designs/reorder` whose k-th position entry is the k-th item's id numbered k+1 |
| Services.ReorderKeepsIdsInOrder | src/services/AllServices.ts:129-132 | one payload entry per item, in list order, with the same ids |
| Services.ReorderPositionsAreOneToN | src/services/AllServices.ts:129-136 | the positions sent are exactly 1..N: the k-th is k+1, so they are dense and distinct |
| Services.ReorderIgnoresIncomingPositions | src/services/AllServices.ts:129-132 | two lists with the same ids give the same payload, whatever their incoming `position_number` |
| Services.TypeOrMovie | src/services/AllServices.ts:217 | the `type` sent is the poster's type when it is non-empty and "Movie" otherwise |
| Services.StatusRequiredKeys | src/services/AllServices.ts:207-217 | the eight fields that are always appended have distinct keys and include none of the optional keys |
| Services.StatusOptionalKeys | src/services/AllServices.ts:219-225 | the optional part holds only description, trailer_link and position_number, each at most once |
| Services.StatusBodyWellFormed | src/services/AllServices.ts:207-225 | the status-toggle body has distinct keys, all from its eleven field names |
| Services.StatusBodyRequiredFields | src/services/AllServices.ts:207-217 | the body always carries `_method=PATCH`, the new status, film_name, year, language, genre, imdb_rating and type |
| Services.StatusBodyDescription | src/services/AllServices.ts:219 | `description` is sent exactly when it is non-empty, with its value |
| Services.StatusBodyTrailerLink | src/services/AllServices.ts:220 | `trailer_link` is sent exactly when it is non-empty, with its value |
| Services.StatusBodyPosition | src/services/AllServices.ts:223-225 | `position_number` is sent exactly when it is truthy (so 0 and "" are omitted), as text |
| Services.UpdatePosterStatus | src/services/AllServices.ts:203-227 | the appends build exactly the status-toggle body, posted to the poster's own path |
| Services.UpdatePoster | src/services/AllServices.ts:187-192 | `_method=PUT` is appended after the caller's entries and is the form's `_method` unless the caller already set one |
| Pagination.Synthesize | src/features/auth/UserList.tsx:48-63 | the envelope built around a bare array carries exactly that array as its rows |
| Pagination.Normalize | src/features/auth/UserList.tsx:48-66 | a bare array becomes the synthesized envelope; an envelope passes through unchanged |
| Pagination.SynthesizedIsOnePage | src/features/auth/UserList.tsx:49-63 | a synthesized envelope is page 1 of 1, total = per_page = row count, no next/prev link, and never shows page controls |
| Pagination.SynthesizedSerials | src/features/auth/UserList.tsx:174 | rows of a synthesized envelope are numbered 1..N and the last serial equals its `to` |
| Pagination.NormalizeIdempotent | src/features/auth/UserList.tsx:48-66 | normalising an already normalised response changes nothing |
| Pagination.RowSerial | src/features/auth/UserList.tsx:174 | the serial is `from + index`, with a null or zero `from` read as 1 |
| Pagination.Received | src/features/auth/UserList.tsx:67-72 | after a fetch, a failure keeps the earlier pagination and a response replaces it with its normalised envelope |
| Pagination.RowsAfterFetch | src/features/auth/UserList.tsx:67-113 | the table shows exactly the rows of the response, bare array or envelope, and after a failure the rows it showed before; none before the first load |
| Pagination.LoadingWhenFetching | src/features/auth/UserList.tsx:41 | a fetch raises the spinner flag when nothing is loaded and leaves it alone otherwise |
| Pagination.ErrorAfterFetch | src/features/projects/ClientsList.tsx:58-61 | a failure sets the error only when nothing was loaded before; success and later failures leave it unchanged |
| Pagination.CurrentPage | src/features/auth/UserList.tsx:33 | the current page is never 0; it is the parameter's numeric value, or 1 when the parameter is missing, zero or non-numeric |
| Pagination.CurrentPageRoundTrip | src/features/auth/UserList.tsx:33 | writing any non-zero page number into the parameter reads back that page |
| Pagination.PageFromLink | src/features/auth/UserList.tsx:101-110 | a page link navigates exactly when its url is non-empty, parses, and has a non-empty `page` parameter |
| Pagination.DisabledLinkWithoutUrlIsInert | src/features/auth/UserList.tsx:260 | a link without a url is disabled and navigates nowhere |
| ListControls.SearchEffect | src/features/auth/UserList.tsx:76-94 | the first run only clears the flag; later runs record the term and arm a timer (for the term and page) exactly when the term changed |
| ListControls.PageEffect | src/features/auth/UserList.tsx:97-99 | the page effect fetches the current page with the current term and changes nothing else |
| ListControls.Mount | src/features/auth/UserList.tsx:33-99 | mounting makes exactly one request, for the URL's page and the empty term, and arms no timer |
| ListControls.Type | src/features/auth/UserList.tsx:76-94 | intended keystroke: no request, and a timer for the new term on the current page when the term changed |
| ListControls.SetPage | src/features/auth/UserList.tsx:86-107 | a new page parameter cancels a pending timer and fetches exactly when the numeric page changes |
| ListControls.FireTimer | src/features/auth/UserList.tsx:86-92 | the timer makes exactly one request, for page 1 and the current term, resetting the parameter to "1" when off page 1 |
| ListControls.ClickLink | src/features/auth/UserList.tsx:101-110 | a link that yields no page changes nothing; otherwise it sets that page |
| ListControls.TypingNeverFetches | src/features/auth/UserList.tsx:76-94 | intended: any burst of typing sends no request and leaves the page alone |
| ListControls.BurstArmsLastTerm | src/features/auth/UserList.tsx:81-93 | after a burst of changing keystrokes one timer is pending, for the last term |
| ListControls.DebouncedSearchFetchesOnce | src/features/auth/UserList.tsx:76-94 | intended debounce: a burst followed by the timer sends exactly one request, for page 1 and the last term |
| ListControls.TypeAsWritten | src/features/auth/UserList.tsx:40-99 | as written, a changing keystroke fetches the current page with the new term at once |
| ListControls.KeystrokesFetchAsWritten | src/features/auth/UserList.tsx:40-99 | as written, each of n changing keystrokes sends its own request |
| ListControls.TwoKeystrokesThreeRequestsAsWritten | src/features/auth/UserList.tsx:40-99 | as written, typing "a" then "ab" on page 1 sends two requests before the timer and a third when it fires |
| ListControls.Step | src/features/projects/ClientsList.tsx:31-88 | intended event step: keeps the controls valid; a response changes no control |
| ListControls.StepClientsAsWritten | src/features/projects/ClientsList.tsx:31-88 | as written in the client list, a successful response re-runs both effects |
| ListControls.RequestsBoundedByTriggers | src/features/projects/ClientsList.tsx:66-88 | intended: requests never outnumber timer fires plus link clicks |
| ListControls.ResponsesAreQuiet | src/features/projects/ClientsList.tsx:56-63 | intended: any run of responses leaves the controls exactly as they were |
| ListControls.SuccessesRefetchAsWritten | src/features/projects/ClientsList.tsx:56-88 | as written, n successful responses send n more requests for the same page and term |
| UserList.UserListView.constructor | src/features/auth/UserList.tsx:24-37 | the view mounts with no pagination, the spinner flag up and the mount request made |
| UserList.UserListView.TypeSearch | src/features/auth/UserList.tsx:76-99 | as written, a changing keystroke fetches the current page with the new term at once and also arms the debounce timer; the spinner rises only when nothing is loaded; a repeated term changes nothing |
| UserList.UserListView.SearchTimerFires | src/features/auth/UserList.tsx:86-92 | the timer fetches page 1 and raises the spinner only when nothing is loaded |
| UserList.UserListView.ClickPageLink | src/features/auth/UserList.tsx:101-110 | a page link updates the controls and raises the spinner only if a request went out and nothing is loaded |
| UserList.UserListView.SettleFetch | src/features/auth/UserList.tsx:67-72 | a response replaces the pagination, a failure keeps it, and the spinner stops either way |
| ClientsList.Initials | src/features/projects/ClientsList.tsx:167 | the logo badge is the upper-cased first two characters of the name, or "NA"; it is 1 or 2 characters long |
| ClientsList.InitialsIdempotent | src/features/projects/ClientsList.tsx:167 | a badge computed from a badge is the same badge |
| ClientsList.BadgeAgreesWithRoles | src/features/projects/ClientsList.tsx:175 | the client badge follows the role list's badge rule on text statuses: active exactly when the status is the text "1" |
| ClientsList.ClientsListView.constructor | src/features/projects/ClientsList.tsx:15-28 | the view mounts with no pagination, no error, the spinner flag up and the mount request made |
| ClientsList.ClientsListView.TypeSearch | src/features/projects/ClientsList.tsx:66-88 | as written, a changing keystroke fetches the current page with the new term at once and also arms the debounce timer; the spinner rises only when nothing is loaded |
| ClientsList.ClientsListView.SearchTimerFires | src/features/projects/ClientsList.tsx:76-82 | the timer fetches page 1; the spinner rises only when nothing is loaded |
| ClientsList.ClientsListView.ClickPageLink | src/features/projects/ClientsList.tsx:86-88 | a page link updates the controls and keeps pagination and error |
| ClientsList.ClientsListView.SettleFetch | src/features/projects/ClientsList.tsx:56-88 | the pagination follows `Received` and the error is set only on a failed first load; as written, a success also cancels a pending search timer and requests the same page again; a failure leaves the controls alone; the spinner stops |
| ContactEnquiries.Unwrap | src/features/contact-enquires/ContactEnquiresList.tsx:37-69 | a truthy `contact_enquiries` wins; then `response.data` when `data.data` is an array; then the response when `data` is an array; then a bare array becomes a one-page envelope; anything else passes through; a null response fails |
| ContactEnquiries.ArrayAgreesWithTypedLists | src/features/contact-enquires/ContactEnquiresList.tsx:50-65 | a bare array unwraps to exactly the envelope the typed lists synthesize |
| ContactEnquiries.WrappingsAgree | src/features/contact-enquires/ContactEnquiresList.tsx:37-48 | an envelope sent bare, inside `data`, or inside `contact_enquiries` gives the same pagination |
| ContactEnquiries.EnvelopeJson | src/features/contact-enquires/ContactEnquiresList.tsx:35 | an envelope's JSON is an object whose `data` is its rows |
| ContactEnquiries.ControlsFollowLastPage | src/features/contact-enquires/ContactEnquiresList.tsx:242 | page controls show exactly when `last_page > 1`, and never for a bare array |
| ContactEnquiries.LastPageReadsThroughTextAndArrays | src/features/contact-enquires/ContactEnquiresList.tsx:242 | a `last_page` sent as text or as a one-element array compares as its number; an array of any other length never shows the controls |
| ContactEnquiries.ReceivedJson | src/features/contact-enquires/ContactEnquiresList.tsx:71-75 | a failure or a null response keeps the pagination; otherwise it becomes the unwrapped shape |
| ContactEnquiries.EnquiriesView.constructor | src/features/contact-enquires/ContactEnquiresList.tsx:11-89 | mounting arms the poll and makes the mount request with no pagination and the spinner up |
| ContactEnquiries.EnquiriesView.BeginFetch | src/features/contact-enquires/ContactEnquiresList.tsx:26-29 | a fetch raises the spinner only while no pagination exists and leaves the pagination unchanged |
| ContactEnquiries.EnquiriesView.TypeSearch | src/features/contact-enquires/ContactEnquiresList.tsx:93-116 | as written, a changing keystroke fetches the current page with the new term at once and also arms the debounce timer |
| ContactEnquiries.EnquiriesView.SearchTimerFires | src/features/contact-enquires/ContactEnquiresList.tsx:103-109 | the timer fetches page 1 for the current term |
| ContactEnquiries.EnquiriesView.ClickPageLink | src/features/contact-enquires/ContactEnquiresList.tsx:118-125 | a page link updates the controls and starts a fetch only if it navigated to a new page |
| ContactEnquiries.EnquiriesView.PollTick | src/features/contact-enquires/ContactEnquiresList.tsx:83-85 | each tick fetches the current page with the current term |
| ContactEnquiries.EnquiriesView.SettleFetch | src/features/contact-enquires/ContactEnquiresList.tsx:71-76 | the pagination follows `ReceivedJson` and the spinner stops |
| ContactEnquiries.EnquiriesView.Teardown | src/features/contact-enquires/ContactEnquiresList.tsx:88-110 | unmounting stops the poll and clears a pending debounce timer, so no search request can follow |
| EmployeeList.PageAfterDelete | src/features/emlpoyee/EmployeeList.tsx:54-59 | refetch one page back exactly when the deleted row was the only one and the page is past 1; otherwise the same page; never below 1 |
| EmployeeList.EmployeeListView.constructor | src/features/emlpoyee/EmployeeList.tsx:10-16 | the view starts on page 1 with no pagination, no error and the spinner up |
| EmployeeList.EmployeeListView.FetchEmployees | src/features/emlpoyee/EmployeeList.tsx:22-26 | a fetch sends the employee query for the page and term and raises the spinner only when nothing is loaded |
| EmployeeList.EmployeeListView.Mount | src/features/emlpoyee/EmployeeList.tsx:18-20 | the mount effect issues one request for page 1, raising the spinner only when nothing is loaded, and changes nothing else |
| EmployeeList.EmployeeListView.SettleFetch | src/features/emlpoyee/EmployeeList.tsx:27-35 | a response becomes the pagination and its `current_page` the page; a failure sets the error only when nothing was loaded |
| EmployeeList.EmployeeListView.HandleDelete | src/features/emlpoyee/EmployeeList.tsx:39-68 | a declined confirm changes nothing; success shows the success toast and refetches the `PageAfterDelete` page; failure shows the fixed error toast and sends nothing more |
| EmployeeList.EmployeeListView.SetSearchTerm | src/features/emlpoyee/EmployeeList.tsx:117 | typing only changes the term: nothing is sent and every other field is kept |
| EmployeeList.EmployeeListView.HandleSearchKey | src/features/emlpoyee/EmployeeList.tsx:70-74 | only Enter searches, and always from page 1 |
| EmployeeList.EmployeeListView.ClickPageLink | src/features/emlpoyee/EmployeeList.tsx:76-87 | a link that yields a page fetches the parsed page number; any other link sends nothing |
| RolesList.ActiveEncodings | src/features/auth/RolesList.tsx:159 | a role is active iff its status is `true`, `1` or `"1"` |
| RolesList.KeepMatching | src/features/auth/RolesList.tsx:54-57 | a role is kept iff it is in the list and its lower-cased name, or its present description, contains the term |
| RolesList.FilterRoles | src/features/auth/RolesList.tsx:49-60 | an empty term shows every role; otherwise exactly the matching roles |
| RolesList.KeepMatchingIsSubsequence | src/features/auth/RolesList.tsx:54-57 | the matching roles keep their order |
| RolesList.FilterIsOrderedSubsequence | src/features/auth/RolesList.tsx:49-103 | the filtered list is an ordered subsequence of the roles, so the badge count never exceeds the role count |
| RolesList.RemoveById | src/features/auth/RolesList.tsx:72 | the roles left are exactly those whose id differs |
| RolesList.RemoveIsSubsequence | src/features/auth/RolesList.tsx:72 | a delete keeps the remaining roles in their order |
| RolesList.RemoveCommutesWithFilter | src/features/auth/RolesList.tsx:49-73 | deleting then filtering equals filtering then deleting |
| RolesList.NormalizeRoles | src/features/auth/RolesList.tsx:33 | an array response is used as it is, otherwise its `data`, otherwise no roles |
| RolesList.RolesListView.Count | src/features/auth/RolesList.tsx:103 | the badge count never exceeds the number of roles |
| RolesList.RolesListView.constructor | src/features/auth/RolesList.tsx:17-23 | no roles, an empty term and the spinner up |
| RolesList.RolesListView.FetchRoles | src/features/auth/RolesList.tsx:26-42 | a response replaces the roles with the normalised list, a failure keeps them and shows the message; the filter is re-applied |
| RolesList.RolesListView.SetSearchTerm | src/features/auth/RolesList.tsx:49-60 | the filter effect re-runs on the new term |
| RolesList.RolesListView.HandleDelete | src/features/auth/RolesList.tsx:63-79 | a declined confirm does nothing; success removes exactly that id; failure keeps the roles and shows the server's message or the fallback |
| EmployeeCreate.SubmitProblem | src/features/emlpoyee/EmployeeCreate.tsx:59-66 | the submit goes through iff name, designation and a photo are present; the field check comes before the photo check |
| EmployeeCreate.PayloadFields | src/features/emlpoyee/EmployeeCreate.tsx:72-77 | the body carries exactly name, designation, status, position_number and photo, once each, with the form's values |
| EmployeeCreate.DefaultsAreIncomplete | src/features/emlpoyee/EmployeeCreate.tsx:17-59 | the untouched form is refused for its text fields |
| EmployeeCreate.EmployeeCreateForm.constructor | src/features/emlpoyee/EmployeeCreate.tsx:14-26 | name, designation and position_number start empty, status "1", no photo |
| EmployeeCreate.EmployeeCreateForm.HandleChange | src/features/emlpoyee/EmployeeCreate.tsx:29-31 | only the named field changes |
| EmployeeCreate.EmployeeCreateForm.HandleFileChange | src/features/emlpoyee/EmployeeCreate.tsx:33-46 | a file above 2 MiB is refused and the photo is unchanged; exactly 2 MiB is accepted; a kept photo is always within the limit |
| EmployeeCreate.EmployeeCreateForm.HandleRemovePhoto | src/features/emlpoyee/EmployeeCreate.tsx:48-53 | the file and its preview are both cleared |
| EmployeeCreate.EmployeeCreateForm.HandleSubmit | src/features/emlpoyee/EmployeeCreate.tsx:55-92 | a refused form shows its message and sends nothing; otherwise the body is posted; success navigates to the list with `submitting` still up; failure shows the server's message or the fallback and lowers it |
| UserCreate.SubmitProblem | src/features/auth/UserCreate.tsx:34-37 | the submit goes through iff name, email, password and phone_number are non-empty |
| UserCreate.UncheckedFields | src/features/auth/UserCreate.tsx:34 | role, country_code and country never affect validation |
| UserCreate.EachRequiredFieldMatters | src/features/auth/UserCreate.tsx:34 | emptying any one required field refuses the form |
| UserCreate.UserCreateForm.constructor | src/features/auth/UserCreate.tsx:13-24 | the defaults: role "user", country_code "+91", country "India", the rest empty |
| UserCreate.UserCreateForm.HandleChange | src/features/auth/UserCreate.tsx:26-28 | only the named field changes |
| UserCreate.UserCreateForm.HandleSubmit | src/features/auth/UserCreate.tsx:30-68 | a refused form sends nothing; success resets to exactly the defaults then runs onSuccess then onClose; failure keeps the form; `submitting` ends false |
| ClientCreate.SubmitProblem | src/features/projects/ClientCreate.tsx:37-40 | the submit goes through iff the name is non-empty and a logo is chosen |
| ClientCreate.PayloadFields | src/features/projects/ClientCreate.tsx:46-49 | the body carries exactly name, status and logo, once each |
| ClientCreate.ClientCreateForm.constructor | src/features/projects/ClientCreate.tsx:14-20 | empty name, status "1", no logo |
| ClientCreate.ClientCreateForm.SetName | src/features/projects/ClientCreate.tsx:99 | only the name changes |
| ClientCreate.ClientCreateForm.SetStatus | src/features/projects/ClientCreate.tsx:110 | only the status changes |
| ClientCreate.ClientCreateForm.HandleFileChange | src/features/projects/ClientCreate.tsx:23-33 | a file above 2 MiB is refused and the logo is unchanged; a kept logo is always within the limit |
| ClientCreate.ClientCreateForm.HandleSubmit | src/features/projects/ClientCreate.tsx:35-70 | a refused form sends nothing; success clears name and logo but keeps the status, then runs onSuccess then onClose; failure keeps everything; `submitting` ends false |
| ClientEdit.PreviewSource | src/features/projects/ClientEdit.tsx:168 | the preview is the new preview, else the current logo, else "" |
| ClientEdit.PayloadFields | src/features/projects/ClientEdit.tsx:81-88 | name and status are always sent; `logo` is sent iff a new file was chosen, and is that file |
| ClientEdit.ClientEditForm.constructor | src/features/projects/ClientEdit.tsx:16-24 | empty name, status "1", no logos |
| ClientEdit.ClientEditForm.OpenChanged | src/features/projects/ClientEdit.tsx:27-38 | open with a truthy id starts that load; otherwise the form resets to name "", status "1" and no logos |
| ClientEdit.ClientEditForm.SettleLoad | src/features/projects/ClientEdit.tsx:40-54 | a client fills name, status and current logo; a failure shows the error and asks to close; `loadingData` ends false |
| ClientEdit.ClientEditForm.SetName | src/features/projects/ClientEdit.tsx:132 | only the name changes |
| ClientEdit.ClientEditForm.SetStatus | src/features/projects/ClientEdit.tsx:142 | only the status changes |
| ClientEdit.ClientEditForm.HandleFileChange | src/features/projects/ClientEdit.tsx:57-67 | a file above 2 MiB is refused; an accepted file becomes the new logo and shows in the preview |
| ClientEdit.ClientEditForm.HandleSubmit | src/features/projects/ClientEdit.tsx:69-105 | a null or zero id does nothing; an empty name shows an error; otherwise the body goes out, success runs onSuccess then onClose; `submitting` ends false |
| RolesCreate.StatusText | src/features/auth/RolesCreate.tsx:136 | the select shows "true" or "false" |
| RolesCreate.Coerced | src/features/auth/RolesCreate.tsx:23-25 | the status input stores `value === 'true'`; every other input stores its raw text |
| RolesCreate.StatusRoundTrip | src/features/auth/RolesCreate.tsx:23-141 | selecting the shown status reads back the same boolean; any other text is inactive |
| RolesCreate.Changed | src/features/auth/RolesCreate.tsx:27 | only the named field changes |
| RolesCreate.ChangeKeepsTypes | src/features/auth/RolesCreate.tsx:22-28 | every change keeps name and description strings and status a boolean |
| RolesCreate.RolesCreateForm.constructor | src/features/auth/RolesCreate.tsx:13-20 | name "", description "", status true |
| RolesCreate.RolesCreateForm.HandleChange | src/features/auth/RolesCreate.tsx:22-28 | the record becomes `Changed` of the old one and stays well typed |
| RolesCreate.RolesCreateForm.HandleSubmit | src/features/auth/RolesCreate.tsx:30-64 | an empty name sends nothing; success resets to the defaults then runs onSuccess then onClose; failure keeps the form; `submitting` ends false |
| AutoLogout.AtMostOnePending | src/components/common/AutoLogoutHandler.tsx:26-38 | since every pending timer is the one the ref names, at most one logout timer is pending |
| AutoLogout.AutoLogoutHandler.ResetTimer | src/components/common/AutoLogoutHandler.tsx:10-39 | the previous timer is cleared first; a fresh 180000 ms (three-minute) timer is armed iff a token is stored and the path is not "/" |
| AutoLogout.AutoLogoutHandler.constructor | src/components/common/AutoLogoutHandler.tsx:42-50 | mounting listens for activity and runs the reset once |
| AutoLogout.AutoLogoutHandler.Activity | src/components/common/AutoLogoutHandler.tsx:44-47 | an activity event resets the timer |
| AutoLogout.AutoLogoutHandler.TimerFires | src/components/common/AutoLogoutHandler.tsx:10-22 | only the armed 180000 ms timer fires; logout removes the token and navigates to "/", leaving no timer pending |
| AutoLogout.AutoLogoutHandler.RouteChanged | src/components/common/AutoLogoutHandler.tsx:39-57 | a new path clears the timer and re-arms only with a token away from "/" |
| AutoLogout.AutoLogoutHandler.Teardown | src/components/common/AutoLogoutHandler.tsx:53-56 | unmounting clears the pending timer and stops listening |

## Left out

- JSX rendering, styling, icons and modal markup: presentation only. A view's render rules appear only as the functions that decide them (rows, serials, badges, controls, preview, spinner, error screen).
- HTTP transport, bearer tokens, `localStorage`, toasts' timing, `window.confirm`, `window.scrollTo` and `console`: I/O. Each awaited call is an outcome parameter, the confirm answer and the stored token are parameters, and toasts are a `notice` field.
- Real time: the 500 ms debounce, the 3 s poll and the 3 min logout are events, not clocks. All awaits are collapsed, so a handler and its response are one step. Interleavings of two requests in flight, and a response arriving after unmount, are not modelled.
- `new URL(...)`, `parseInt` and `URL.createObjectURL`: browser library behaviour. The page parameter, the parsed number and the object URL are inputs.
- Common.NumberOf: does not model whitespace, decimals, exponents, hex or "Infinity"; those strings are treated as NaN.
- Common.Lower and Common.UpperChar: map ASCII letters only; JavaScript's full Unicode case mapping is not modelled.
- ClientsList.Initials: takes the first two characters of the name, while `substring(0, 2)` counts UTF-16 code units; the two differ for a name starting with a character outside the Basic Multilingual Plane (an emoji, say), which the model does not distinguish.
- ContactEnquiries.Json: numbers are integers; fractional JSON numbers are not modelled.
- The remote endpoints `getAllClients`, `createClient`, `updateClient`, `getClientById`, `getAllContactEnquiries` and the whole user and role service are not part of this model. The forms return the body or record they hand to them. `createEmployee`'s post to `/employee-photos` is modelled inside EmployeeCreate.
- `updateClient` is said to add `_method=PUT` like `updatePoster`; its body is not part of this model. ClientEdit.ClientEditForm.HandleSubmit returns the body before that service step.
- The drag-and-drop array move and the optimistic status-toggle rollback are not part of this model. Only the reorder renumbering is modelled.
- The other poster services (`getPosterDesignList`, `getPosterById`, `createPoster`, `searchPosters`, `deletePoster`, `deleteBulkPosterImages`) and `deleteEmployee`: they only pass arguments to the HTTP client, so the model records just the id a delete asks for.
- UserList.UserListView.SearchTimerFires and the other views' fetches: the fetch callback as written reads `pagination` as of its last re-creation. The model uses the current value. This affects only the spinner flag, which is invisible once a pagination exists.
- ListControls: assumes, as react-router does, that `setSearchParams` changes identity when the query string changes, so the search effect re-runs on a page change.
- EmployeeCreate.EmployeeCreateForm.HandleSubmit, UserCreate.UserCreateForm.HandleSubmit, ClientCreate.ClientCreateForm.HandleSubmit, ClientEdit.ClientEditForm.HandleSubmit and RolesCreate.RolesCreateForm.HandleSubmit: do not require `!submitting`. A second submit while one is in flight is not modelled, because the awaits are collapsed.
- EmployeeCreate.EmployeeCreateForm.HandleChange and UserCreate.UserCreateForm.HandleChange: accept any field name, as the code does. The rendered inputs only ever use the form's own field names.

## Findings

| source | as written | input that shows it | evidently intended | confidence | as-written member | corrected member |
|---|---|---|---|---|---|---|
| src/features/auth/UserList.tsx:40-99 | here and in the contact-enquiry and client lists, the fetch callback is memoised on `searchTerm`, and the page effect depends on it, so every keystroke fetches the current page at once and the 500 ms debounce fetches a second time | page 1, empty box: typing "a" then "ab" sends requests for "", "a", "ab", and the timer sends "ab" again | a keystroke only arms the debounce; one request for page 1 and the last term after the timer | not executed | ListControls.TypeAsWritten, ListControls.KeystrokesFetchAsWritten, ListControls.TwoKeystrokesThreeRequestsAsWritten, UserList.UserListView.TypeSearch | ListControls.Type, ListControls.DebouncedSearchFetchesOnce |
| src/features/projects/ClientsList.tsx:56-88 | `fetchClients` lists `pagination` among its dependencies and sets it, so every successful response re-creates it and re-runs the page effect, which fetches again without end; the re-run also cancels a pending search timer | any mounted client list whose server answers successfully: n responses cause n further requests for the same page | a response only updates the data shown; requests come only from the timer and page links | not executed | ListControls.StepClientsAsWritten, ListControls.SuccessesRefetchAsWritten, ClientsList.ClientsListView.SettleFetch | ListControls.Step, ListControls.RequestsBoundedByTriggers, ListControls.ResponsesAreQuiet |

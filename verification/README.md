# ResolveNow complaint tracking, modelled in Dafny

ResolveNow is a complaint desk. Signed-in users file complaints with a title, a description, a category and a priority, and they can list their own complaints. Administrators list every complaint. This project models the part of the application that decides things, as pure functions over immutable data:

- **the server's three complaint routes** (`complaint_routes.dfy`). Create, list-all and list-mine run over an abstract store. The store is a sequence of records with a server clock that stamps `createdAt` (`complaint_store.dfy`).
- **the complaint schema** (`complaint_schema.dfy`). It is modelled as the document mapper runs it:
  - cast to string, which takes a string `_id` from an object;
  - the trim and lower-case setters;
  - defaults applied only to an undefined path;
  - `required` checked before the enum check;
  - one error per failing path, reported in schema order.

  A reference predicate `Acceptable` states which drafts pass, path by path, directly on the JSON values. The validator is proved to agree with it.
- **the client's HTTP wrapper** (`http_client.dfy`). It covers the bearer-token request step and the three-way error normalisation of the response step.
- **the route guard** (`protected_route.dfy`). It decides between redirecting to `/login` and rendering.
- **the complaint form page** (`submit_complaint.dfy`). It covers field validation, edits and submit.
- **the dashboard page** (`dashboard.dfy`). It is a small state machine for mount, form edits, submit with its role-dependent refresh, and the own-complaints fetch.
- **cross-cutting properties** (`scenarios.dfy`):
  - the power-cut complaint: Alice files it, Bob's list stays empty, the administrator sees it;
  - the client form against the server gate;
  - the two storage layouts the client reads.

Shared definitions:

- `js.dfy` holds the JavaScript semantics the code relies on:
  - JSON values;
  - truthiness, including `||` and `?.`;
  - `String(v)`;
  - `trim` over the ECMAScript whitespace set;
  - ASCII `toLowerCase`;
  - UTF-16 `length`.
- `session.dfy` holds local storage. Each stored item carries its raw text and what `JSON.parse` makes of it.
- `base.dfy` holds `Option` and `Result`.

In three places the code behaves differently from what a reader might expect:

- **Roles.** The role is the stored string and is compared exactly with `admin`. It is not a closed enumeration. Any other string, including `Admin`, is refused, so the check fails closed.
- **Create failures.** A failed create answers 400 in every case: a missing field, a schema rejection, or a failed save.
- **Which HTTP client each page uses.** Neither page imports the interceptor client modelled in `http_client.dfy`. The complaint form page imports `../api/axios`. The dashboard (`frontend/src/pages/Dashboard.jsx:3`) imports `../utils/axios` from its own tree, which resolves to `frontend/src/utils/axios.js`, not to `project/frontend/src/utils/axios.js`. Both pages therefore take each request's outcome as an input, and the model assumes nothing about the client behind it.

Inputs the code does not control are parameters:

- the caller's identity, as resolved by the authentication middleware;
- a database failure message (`saveFault`, `readFault`);
- the transport function of the HTTP client;
- the outcome of each request a page makes;
- the content of local storage.

## Model

| member | source | states |
|---|---|---|
| Js.Trim | project/frontend/src/pages/SubmitComplaint.jsx:24 | the result has no whitespace at either end; it is empty exactly when the input is all whitespace; it is never longer than the input |
| Js.TrimInfix | project/backend/models/Complaint.js:7 | trimming keeps one contiguous piece of the input and removes only whitespace on both sides |
| Js.TrimIdempotent | project/backend/models/Complaint.js:7 | trimming a trimmed string changes nothing |
| Js.LowerTrimCommute | project/backend/models/Complaint.js:17-18 | trim and lower-case commute, so the order of the two e-mail setters does not matter |
| Js.LowerTrimStartCommute | project/backend/models/Complaint.js:17-18 | removing leading whitespace commutes with lower-casing (by induction) |
| Js.LowerTrimEndCommute | project/backend/models/Complaint.js:17-18 | removing trailing whitespace commutes with lower-casing (by induction) |
| Js.Lower | project/backend/models/Complaint.js:18 | lower-casing keeps the length and maps each character on its own |
| Js.LowerIdempotent | project/backend/models/Complaint.js:18 | lower-casing a lower-cased string changes nothing |
| Js.Utf16Length | project/frontend/src/pages/SubmitComplaint.jsx:26 | `length` counts UTF-16 units: exactly the number of characters when none is outside the BMP, twice that when all are, 1 or 2 for a single character as it is outside the BMP or not; always between the two bounds, and zero only for the empty string |
| Js.Utf16LengthConcat | project/frontend/src/pages/SubmitComplaint.jsx:26 | the unit count of a concatenation is the sum of the counts (by induction), so with the single-character values it fixes the count of every string |
| Js.OrElse | project/frontend/src/utils/axios.js:35 | `x \|\| fallback` yields `x` when it is truthy and the fallback otherwise |
| Session.ParseStored | frontend/src/pages/Dashboard.jsx:25 | a missing key parses to `null`; a present key yields its stored parse outcome, which may be an exception |
| ComplaintSchema.CategoryNamed | project/backend/models/Complaint.js:20-27 | a category is found only by its exact name, and no member has a name that is not listed |
| ComplaintSchema.PriorityNamed | project/backend/models/Complaint.js:33-41 | a priority is found only by its exact name |
| ComplaintSchema.StatusNamed | project/backend/models/Complaint.js:42-49 | a status is found only by its exact name (`In Progress` with its space) |
| ComplaintSchema.CastString | project/backend/models/Complaint.js:5 | an undefined path stays undefined and `null` stays `null`; strings pass through unchanged; numbers and booleans become their text; an object becomes its `_id` when that is a non-empty string and is a cast error otherwise |
| ComplaintSchema.StringValue | project/backend/models/Complaint.js:5 | the string the cast takes from a value: a string itself, or an object's `_id` exactly when that is a string; nothing for other values |
| ComplaintSchema.OrDefault | project/backend/models/Complaint.js:40 | an undefined path takes exactly the default string; a present value, `null` included, is kept |
| ComplaintSchema.CheckText | project/backend/models/Complaint.js:6 | a required string path passes exactly when its value after cast and setters is a non-empty string, and yields that string; any error names that path |
| ComplaintSchema.CheckCategory | project/backend/models/Complaint.js:20-27 | the category passes exactly when its text names a member, and the stored member has that name |
| ComplaintSchema.CheckPriority | project/backend/models/Complaint.js:33-41 | the priority passes exactly when its text names a member |
| ComplaintSchema.CheckStatus | project/backend/models/Complaint.js:42-49 | the status passes exactly when its text names a member; `null` is refused |
| ComplaintSchema.PathError | project/backend/models/Complaint.js:3-54 | an error reported for a path names that path |
| ComplaintSchema.Collect | project/backend/models/Complaint.js:3-54 | running the validators path by path reports exactly the failing paths, each once, in the order the schema declares them |
| ComplaintSchema.AcceptableAllPaths | project/backend/models/Complaint.js:3-54 | a draft is acceptable exactly when every path is acceptable |
| ComplaintSchema.TextCheckMatches | project/backend/models/Complaint.js:4-8 | cast, trim and `required` together accept exactly a non-null primitive whose text is not all whitespace, or an object whose `_id` is a string that is not all whitespace |
| ComplaintSchema.CheckTrimmedText | project/backend/models/Complaint.js:6-7 | a required text path given a trimmed (and possibly lower-cased) string passes exactly when the original is not all whitespace |
| ComplaintSchema.ObjectCheckMatches | project/backend/models/Complaint.js:4-8 | an object on a text path passes exactly when its `_id` is a string that is not all whitespace |
| ComplaintSchema.PrimitiveIsNoName | project/backend/models/Complaint.js:20-49 | a number or boolean never matches an enum member after casting, so enum values are never coerced |
| ComplaintSchema.PathErrorMatches | project/backend/models/Complaint.js:3-54 | the pipeline rejects a path exactly when the reference definition says it is not acceptable |
| ComplaintSchema.Failures | project/backend/models/Complaint.js:3-54 | the reported paths are in schema order, and a path is reported exactly when it is not acceptable |
| ComplaintSchema.NoFailuresIffAcceptable | project/backend/models/Complaint.js:3-54 | no failure is reported exactly when the draft is acceptable |
| ComplaintSchema.Validate | project/backend/models/Complaint.js:3-58 | accepted exactly when acceptable, and then stored as `Build`; otherwise refused with every failing path listed once, in schema order |
| ComplaintSchema.TextCheckValue | project/backend/models/Complaint.js:4-19 | on an acceptable text path the validator passes on the trimmed text, also lower-cased for the e-mail |
| ComplaintSchema.ValidatedValues | project/backend/models/Complaint.js:4-54 | a validated document stores the trimmed cast texts and the lower-cased trimmed e-mail; each stored enum's name is the string given, directly or as an object's `_id`; Medium and Pending are used when those paths are absent |
| ComplaintSchema.BuiltEnums | project/backend/models/Complaint.js:20-54 | in an acceptable draft, the stored category, priority and status are the members named by the given strings |
| ComplaintSchema.StoredTextNormalised | project/backend/models/Complaint.js:4-13 | an acceptable text path is stored non-empty and already trimmed |
| ComplaintSchema.StoredEmailNormalised | project/backend/models/Complaint.js:14-19 | an acceptable e-mail is stored non-empty, trimmed and lower-cased |
| ComplaintSchema.ValidatedIsNormalised | project/backend/models/Complaint.js:4-32 | every validated document is normalised |
| ComplaintSchema.NamesRoundTrip | project/backend/models/Complaint.js:20-49 | every enum member is found again by its name |
| ComplaintSchema.RevalidateNormalised | project/backend/models/Complaint.js:3-58 | validating a stored document again returns it unchanged |
| ComplaintSchema.DraftOfAcceptable | project/backend/models/Complaint.js:3-54 | the draft made from a normalised stored document is acceptable |
| ComplaintSchema.CategoryExact | project/backend/models/Complaint.js:20-27 | an accepted category was given as a string or as an object with a string `_id`, and that string is one of the four listed names; a number or boolean is never accepted |
| ComplaintStore.Insert | project/backend/models/Complaint.js:55-57 | the server assigns the id and both timestamps from its clock; the record is appended; the clock advances; the store invariant is kept |
| ComplaintStore.InsertIsNew | project/backend/routes/complaints.js:26 | the inserted record was not in the store before and occurs exactly once afterwards |
| ComplaintStore.InsertByRecency | project/backend/routes/complaints.js:43 | inserting into a newest-first list keeps it newest first and adds exactly that record |
| ComplaintStore.SortNewestFirst | project/backend/routes/complaints.js:43 | the sort yields a newest-first permutation of its input |
| ComplaintStore.OwnedBy | project/backend/routes/complaints.js:56 | the filter keeps every record of the owner as often as it occurs, and nothing else |
| ComplaintStore.FindAll | project/backend/routes/complaints.js:42-44 | every stored record, newest first |
| ComplaintStore.FindByOwner | project/backend/routes/complaints.js:56-57 | exactly the owner's records, newest first |
| ComplaintRoutes.Create | project/backend/routes/complaints.js:7-32 | answers 201 or 400; a falsy required field gives 400 with the fixed message and leaves the store unchanged; any 400 leaves the store unchanged; a 201 appends exactly the returned record, stamped by the server, `Pending`, owned by the caller |
| ComplaintRoutes.CreateSucceedsIff | project/backend/routes/complaints.js:12-31 | 201 exactly when the gate passes, the schema accepts and the save succeeds; a schema rejection answers with its validation message and a save failure with its own message |
| ComplaintRoutes.CreateStoresValidated | project/backend/routes/complaints.js:12-27 | a 201 means the body had all four fields and the stored document is the schema's validated value of the draft |
| ComplaintRoutes.CreatedRecord | project/backend/routes/complaints.js:16-24 | name, e-mail and owner come from the identity, not the body; status is Pending; the title and description are the body's values cast and trimmed; the category and priority are named by the string the body gave, directly or as an `_id` |
| ComplaintRoutes.CreateIgnoresOtherFields | project/backend/routes/complaints.js:9 | bodies that agree on the four named fields give identical replies, so the client cannot set `status` |
| ComplaintRoutes.CreatePreservesValid | project/backend/routes/complaints.js:26-27 | every create keeps the store invariant |
| ComplaintRoutes.CreateThenListMine | project/backend/routes/complaints.js:54-58 | after a successful create, the creator's list holds the new complaint exactly once |
| ComplaintRoutes.ListAll | project/backend/routes/complaints.js:35-51 | 403 exactly for a role other than `admin`; a read failure gives 500 with its message; otherwise every stored record, newest first; the store is unchanged |
| ComplaintRoutes.ListMine | project/backend/routes/complaints.js:54-63 | a read failure gives 500; otherwise exactly the caller's records, newest first; the store is unchanged |
| ComplaintRoutes.ListMineIsolated | project/backend/routes/complaints.js:56 | another owner's record never appears in a caller's list |
| ComplaintRoutes.ListAllComplete | project/backend/routes/complaints.js:42-46 | every stored record appears in an administrator's list |
| ComplaintRoutes.ListMineOthersEmpty | project/backend/routes/complaints.js:56-58 | a caller who owns nothing gets an empty list |
| ComplaintRoutes.ListAllSingle | project/backend/routes/complaints.js:42-46 | an administrator listing a one-record store gets exactly that record |
| ComplaintRoutes.CreateOnEmpty | project/backend/routes/complaints.js:16-27 | a successful create on an empty store leaves just the new record, owned by its author |
| ComplaintRoutes.FirstComplaintHiddenFromOthers | project/backend/routes/complaints.js:56-58 | another user does not see the first complaint |
| ComplaintRoutes.FirstComplaintSeenByAdmin | project/backend/routes/complaints.js:38-46 | an administrator sees exactly the first complaint |
| HttpClient.Outgoing | project/frontend/src/utils/axios.js:3-9 | a root-relative path goes to the base URL followed by that path, and the request carries no Authorization header by default |
| HttpClient.StoredToken | project/frontend/src/utils/axios.js:14-15 | a token is read only from a stored `userInfo` object that parses |
| HttpClient.AttachToken | project/frontend/src/utils/axios.js:12-22 | a parse exception aborts the call; otherwise the URL and every other header are kept, and `Authorization: Bearer <token>` is added exactly when the stored token is truthy |
| HttpClient.NormaliseError | project/frontend/src/utils/axios.js:31-44 | every rejection carries a truthy `message`: the server's own message or the generic text when a reply arrived, otherwise the no-response text or the setup text |
| HttpClient.Send | project/frontend/src/utils/axios.js:29-45 | only a 2xx reply to the prepared request resolves; every rejection has a truthy message; a storage parse exception is rejected as a setup error |
| HttpClient.SuccessPassesThrough | project/frontend/src/utils/axios.js:30 | a 2xx reply reaches the caller unchanged |
| HttpClient.FailureStatusRejected | project/frontend/src/utils/axios.js:32-36 | a non-2xx reply is rejected with the server's message, or with `An error occurred` when it has none |
| HttpClient.BranchesPartition | project/frontend/src/utils/axios.js:31-44 | the three error branches are exhaustive and mutually exclusive |
| HttpClient.BearerReachesServer | project/frontend/src/utils/axios.js:14-21 | a dispatched request carries the header exactly when the stored token is truthy, and then it carries `Bearer <token>` |
| ProtectedRoute.StoredUser | project/frontend/src/components/ProtectedRoute.jsx:5 | a missing or empty `user` entry reads as `null`; otherwise the entry's own parse is used |
| ProtectedRoute.Guard | project/frontend/src/components/ProtectedRoute.jsx:3-12 | renders the page exactly when the token is non-empty and the user is truthy; every redirect goes to `/login` and replaces the history entry; a malformed user entry throws |
| ProtectedRoute.NoTokenRedirects | project/frontend/src/components/ProtectedRoute.jsx:4-8 | no stored token means a redirect |
| ProtectedRoute.NoUserRedirects | project/frontend/src/components/ProtectedRoute.jsx:5-8 | a missing user, or one that parses to `null` or another falsy value, means a redirect |
| ProtectedRoute.GuardReadsOnlyTokenAndUser | project/frontend/src/components/ProtectedRoute.jsx:4-5 | two storages that agree on the `token` and `user` entries get the same decision, whatever else they hold |
| ProtectedRoute.StoredSessionRenders | project/frontend/src/components/ProtectedRoute.jsx:4-11 | a non-empty token with a stored user object renders the page |
| SubmitComplaintPage.Set | project/frontend/src/pages/SubmitComplaint.jsx:92 | an edit changes the named field and no other |
| SubmitComplaintPage.TextError | project/frontend/src/pages/SubmitComplaint.jsx:24-28 | no error exactly when the trimmed length reaches the minimum; "required" when the trim is empty; "too short" otherwise |
| SubmitComplaintPage.SelectionError | project/frontend/src/pages/SubmitComplaint.jsx:31-38 | an error exactly when the selection is empty, and then the fixed message |
| SubmitComplaintPage.FieldError | project/frontend/src/pages/SubmitComplaint.jsx:20-45 | a field has an error exactly when the reference rule fails; the message is never empty |
| SubmitComplaintPage.ErrorsOf | project/frontend/src/pages/SubmitComplaint.jsx:20-46 | the map has an entry exactly for each failing field, holding that field's message |
| SubmitComplaintPage.ErrorsEmptyIffAcceptable | project/frontend/src/pages/SubmitComplaint.jsx:47-48 | the map is empty exactly when every field passes |
| SubmitComplaintPage.ValidateForm | project/frontend/src/pages/SubmitComplaint.jsx:20-49 | returns true exactly when the map is empty, which is exactly when the form is acceptable; each failing field has one non-empty message |
| SubmitComplaintPage.TitleRules | project/frontend/src/pages/SubmitComplaint.jsx:24-28 | "Title is required" for a blank title, "at least 3 characters" for a shorter one, and no error from 3 units up |
| SubmitComplaintPage.DescriptionRules | project/frontend/src/pages/SubmitComplaint.jsx:41-45 | the same for the description with 10 units |
| SubmitComplaintPage.HandleChange | project/frontend/src/pages/SubmitComplaint.jsx:90-97 | only the named field changes; its error, if present, ends blank; other fields and errors are untouched |
| SubmitComplaintPage.FailureMessage | project/frontend/src/pages/SubmitComplaint.jsx:80 | the server's truthy `message`, else the fixed fallback; always truthy |
| SubmitComplaintPage.HandleSubmit | project/frontend/src/pages/SubmitComplaint.jsx:51-88 | posts the form exactly when it is acceptable, and otherwise only shows the errors; success resets the form, clears the errors, shows the success banner and schedules `/dashboard`; failure keeps the form and shows the failure message; loading ends false |
| SubmitComplaintPage.EditClearsOnlyThatError | project/frontend/src/pages/SubmitComplaint.jsx:90-96 | after a refused submit, editing a field blanks its message and leaves the other fields' messages showing |
| DashboardPage.FetchAll | frontend/src/pages/Dashboard.jsx:47-55 | success replaces the full list; failure changes nothing |
| DashboardPage.FetchMine | frontend/src/pages/Dashboard.jsx:57-69 | success stores the list and shows it; failure leaves visibility as it was; `submitting` ends false |
| DashboardPage.Mount | frontend/src/pages/Dashboard.jsx:22-45 | navigates to `/login` exactly when the stored value is falsy; requests the full list exactly for role `admin`; a parse exception navigates nowhere and fetches nothing; loading ends false |
| DashboardPage.HandleChange | frontend/src/pages/Dashboard.jsx:71-77 | only the named form field changes |
| DashboardPage.Refresh | frontend/src/pages/Dashboard.jsx:102-109 | an administrator reloads the full list; anyone else reloads their own list only when it is shown; at most one reload |
| DashboardPage.HandleSubmit | frontend/src/pages/Dashboard.jsx:79-117 | a blank trimmed title or description sends nothing and changes nothing; otherwise the form is posted; success resets to the blank form and refreshes; `submitting` ends false |
| DashboardPage.SubmitCalls | frontend/src/pages/Dashboard.jsx:83-109 | the POST comes first, and at most one refresh follows; the full list is refreshed exactly for an administrator, the own list exactly for a non-administrator viewing it; never both |
| DashboardPage.ViewsExclusive | frontend/src/pages/Dashboard.jsx:244-305 | the administrator list and the personal views never show together, and nothing shows while loading |
| DashboardPage.MountWithoutSessionShowsNothing | frontend/src/pages/Dashboard.jsx:25-29 | with no stored `userInfo` the page navigates to `/login`, fetches nothing and shows no list |
| DashboardPage.MountFetchesOnlyForAdmin | frontend/src/pages/Dashboard.jsx:33-35 | the full-list request is made, once, exactly when the page then shows the administrator list |
| DashboardPage.MountConsistent | frontend/src/pages/Dashboard.jsx:22-45 | after mount, only an administrator's page holds the full list, and the personal list is shown only to a signed-in non-administrator |
| DashboardPage.HandleChangeConsistent | frontend/src/pages/Dashboard.jsx:71-77 | a form edit keeps that invariant |
| DashboardPage.FetchAllConsistent | frontend/src/pages/Dashboard.jsx:47-55 | the full-list request, made for an administrator, keeps it |
| DashboardPage.FetchMineConsistent | frontend/src/pages/Dashboard.jsx:57-69 | the own-list request from the button shown to a signed-in non-administrator keeps it |
| DashboardPage.HandleSubmitConsistent | frontend/src/pages/Dashboard.jsx:79-117 | a submit, with any outcome and any refresh, keeps it |
| Scenarios.WellFormedComplaintCreated | project/backend/routes/complaints.js:7-27 | a complaint with non-blank texts and listed enum names, from a caller with a non-blank name and e-mail, is created when the save succeeds |
| Scenarios.WellFormedComplaintStored | project/backend/routes/complaints.js:16-27 | such a complaint is stored `Pending` with the category and priority sent, owned by its author |
| Scenarios.PowerCutAccepted | project/backend/routes/complaints.js:7-27 | Alice's power-cut complaint (title "No power", category Electricity, priority High) is created in an empty store |
| Scenarios.PowerCutStored | project/backend/routes/complaints.js:16-27 | it is stored `Pending`, at `High`, owned by its author |
| Scenarios.PowerCutVisibility | project/backend/routes/complaints.js:35-63 | another user's list stays empty, and the administrator sees exactly that complaint |
| Scenarios.DocumentCategoryBody | project/backend/routes/complaints.js:9 | a body whose category is an object with the category's name as `_id` |
| Scenarios.DocumentIdCategoryAccepted | project/backend/models/Complaint.js:20-27 | a category sent as `{"_id": <name>}` passes the gate and the schema and is stored as that category |
| Scenarios.BodyOf | project/frontend/src/pages/SubmitComplaint.jsx:62 | the posted body carries the four form fields as strings |
| Scenarios.AcceptedFormPassesGate | project/backend/routes/complaints.js:12 | a form the page accepts always passes the server's required-field gate |
| Scenarios.GateIsWeakerOnServer | project/frontend/src/pages/SubmitComplaint.jsx:26 | a one-character title passes the server gate but not the form |
| Scenarios.UserInfoOnlySession | project/frontend/src/components/ProtectedRoute.jsx:4-5 | a session stored only under `userInfo` gets a bearer header from the client, but the guard still redirects, because it reads `token` and `user` |

## Left out

- Persistence is abstract. The MongoDB driver, query execution and `populate` of the owner are not modelled. The store is a sequence, and ids and timestamps come from one counter.
- Among records with equal `createdAt`, the order of a list is not pinned down. The contracts promise a non-increasing `createdAt` and a permutation, no more.
- Authentication is outside the model: token verification, the auth middleware and the auth routes are not part of it. The caller's identity is an input. A missing or invalid token never reaches the handlers modelled here.
- The Express app, CORS, body parsing, the generic server error handler and the listening port are left out.
- The client's 10-second timeout is left out. A timed-out request is one of the transport outcomes: a request with no reply.
- `JSON.parse` is not implemented. Each stored item carries its parse outcome.
- JSON arrays and fractional numbers are not represented in the JSON values. Numbers are integers, and arrays in request bodies are not modelled.
- `ComplaintSchema.ValidationMessage` uses the document mapper's usual aggregate form: "Complaint validation failed: path: message, ...". The model also uses the mapper's default texts for a failed cast and for a required path without a custom message. These texts come from the mapper library, not from the repository. They are modelled approximately, and no contract depends on their exact wording.
- `Js.Lower` lower-cases ASCII letters only, because full Unicode case mapping is not modelled.
- The HTTP clients the two pages import, `../api/axios` for the complaint form page and `frontend/src/utils/axios.js` for the dashboard, are not part of this model. Each page takes its request outcomes as inputs; the form page's failure input is whatever `response.data` its error may carry, including none.
- The dashboard is assumed to reach the same server routes as the interceptor client, but no property connects the two: `frontend/src/utils/axios.js` is not part of this model.
- `ComplaintSchema.Collect`, `ComplaintSchema.Failures` and `ComplaintSchema.Validate` list failing paths in the order the schema declares them. That order is the model's choice; the mapper's own order of errors is not pinned down here, and no other property depends on it.
- `HttpClient.Outgoing` requires a root-relative path (one leading `/`). Other paths, which axios would join to the base URL with its own slash handling, are not modelled.
- Toast notifications, spinners, styling and date formatting are not modelled. The 2-second delay before the redirect to `/dashboard` is also left out: the model records only that the redirect is scheduled.
- React's asynchronous state updates are collapsed into one step per handler. Each request's outcome is an input to that step.
- Navbar, the complaint list page, the home page and the router setup are not part of this model.

# Hackathon CMS dashboard — a verified model of its decision logic

The dashboard is a React front end through which organisers of a hackathon
manage registrations, team members, sponsors, supporting partners and the
event description stored in a REST backend. This project models the rules
the front end applies. It does not model the rendering.

- **Session and transport** (`Api`, `App`): the session token in
  `localStorage`, the request interceptor that adds the bearer header, the
  success and error interceptors (the eight-branch error ladder, its single
  notification and the token removal on its 401 branch), the paths and
  multipart override of the generic `apiService`, the login token capture,
  the query key each mutation invalidates, and the `isAuthenticated` flag.
- **Per-entity view logic** (`Registration`, `TeamMembers`, `Sponsors`,
  `Partners`, `About`): the registration search and CSV export, the
  verified-status toggle, the member-to-team filter, the GitHub link, the
  sponsor badge colour and text, the multipart payload of every form, the
  create-or-update dispatch on save, the add/edit/delete handlers, and the
  normalisation, editing and saving of the hackathon description.

Modules: `Common` holds the option type, JavaScript truthiness, and models
of the string and array operations the components call. `Browser` holds
`localStorage` and file picks. `Entities` holds the backend records. `Api`
models `src/services/api.ts`. There is one module per component file and
`App` for `src/App.tsx`.

Form: a `FormData` object is the sequence of its appended (name, value)
pairs. Each form is a class: its constructor is the initial state and its
`Submit` method builds the payload by successive appends. Component state
is a class whose handlers update its fields. Each page records the
mutations it issues in a field `issued`. `window.confirm` is a boolean
argument. The object URL of a picked file is a string argument.

The model follows what the code does, including where a reader, or a comment
in the code, might expect otherwise:

- JavaScript truthiness is kept, so an empty string counts as absent. The
  bearer header is added only when the stored token is present *and*
  non-empty. The same holds for the success notification (`data?.message`),
  for the `message`/`error` rungs of the error ladder, for the login token
  capture (`data.access_token`) and for the startup restore in `App`.
- The about page adopts a single-object response only when its
  `description` is non-empty (`hackathonData.description` is tested for
  truthiness).
- The team-member card reads the embedded registration as
  `Registrationformhackerid`. The registration detail view reads it as
  `Registrationformhacker`. `Entities.TeamMember` keeps both fields.

## Model

| member | source | states |
|---|---|---|
| Common.Lower | src/components/dashboard/Registration.tsx:66-67 | lower-casing keeps the length and maps each character through the ASCII lower-case map |
| Common.LowerIdempotent | src/components/dashboard/Sponsors.tsx:44 | lower-casing twice is lower-casing once |
| Common.LowerOfUpper | src/components/dashboard/Sponsors.tsx:44 | lower-casing an upper-cased string gives the lower-cased original |
| Common.Upper | src/components/dashboard/Sponsors.tsx:99 | upper-casing keeps the length and maps each character through the ASCII upper-case map |
| Common.StartsWith | src/components/dashboard/TeamMembers.tsx:148 | `startsWith`: the string's first characters are the prefix (a definition; TeamMembers.GithubHrefKeepsIff) |
| Common.Includes | src/components/dashboard/Registration.tsx:66-68 | `includes`: the term is a prefix of the string or of one of its suffixes (a definition; Common.IncludesIffOccurs) |
| Common.IncludesIffOccurs | src/components/dashboard/Registration.tsx:66-68 | `includes` holds exactly when the term occurs at some position |
| Common.Trim | src/components/dashboard/About.tsx:126 | `trim`: leading, then trailing, white space and line terminators removed (a definition; Common.TrimEmptyIffAllSpace) |
| Common.TrimEmptyIffAllSpace | src/components/dashboard/About.tsx:126 | `trim` yields "" exactly when every character is ECMAScript white space or a line terminator |
| Common.Join | src/components/dashboard/Registration.tsx:92-93 | `join` with a one-character separator: the parts with the separator between neighbours (a definition; Common.SplitJoin) |
| Common.SplitJoin | src/components/dashboard/Registration.tsx:92-93 | splitting a join at the separator gives back the parts when no part holds the separator |
| Common.Filter | src/components/dashboard/Registration.tsx:64 | `filter` returns only elements of the input that satisfy the predicate, and every satisfying element appears in it |
| Common.FilterCounts | src/components/dashboard/Registration.tsx:64 | each element satisfying the predicate is kept as many times as it occurs in the input, and every other element occurs zero times |
| Common.FilterIsSubsequence | src/components/dashboard/Registration.tsx:64-70 | the filtered list is an order-preserving subsequence of the input |
| Browser.LocalStorage.GetItem | src/services/api.ts:15 | `getItem` returns the stored value, or `null` exactly when the key is absent |
| Browser.LocalStorage.SetItem | src/services/api.ts:147 | the key is mapped to the value and no other key changes |
| Browser.LocalStorage.RemoveItem | src/services/api.ts:48 | exactly that key is removed |
| Browser.LocalStorage.Clear | src/App.tsx:15 | every key is removed |
| Api.ListPath | src/services/api.ts:73-76 | the collection path `/<endpoint>` (a definition; Api.PathRoundTrip reads it back) |
| Api.ItemPath | src/services/api.ts:79-82 | the item path `/<endpoint>/<id>` (a definition; Api.PathRoundTrip reads it back) |
| Api.GetAll | src/services/api.ts:73-76 | GET of the collection path with no body (a definition; the shape is stated in Api.AccessorShapes) |
| Api.GetById | src/services/api.ts:79-82 | GET of the item path (a definition; Api.AccessorShapes) |
| Api.CreateItem | src/services/api.ts:85-92 | POST of the payload to the collection path with the upload config (a definition; Api.AccessorShapes) |
| Api.UpdateItem | src/services/api.ts:95-102 | PATCH of the payload to the item path with the upload config (a definition; Api.AccessorShapes) |
| Api.DeleteItem | src/services/api.ts:105-108 | DELETE of the item path with no body (a definition; Api.AccessorShapes) |
| Api.Login | src/services/api.ts:111-114 | POST to `/auth/login` with email and password as a JSON body and no header override (a definition) |
| Api.InitialHeaders | src/services/api.ts:6-11 | a request starts with `Content-Type: application/json` unless its own config overrides it |
| Api.UploadConfig | src/services/api.ts:86-89 | the create/update config sets `Content-Type: multipart/form-data` if and only if the payload is a `FormData`, and sets nothing else |
| Api.PathRoundTrip | src/services/api.ts:73-108 | `/<endpoint>` and `/<endpoint>/<id>` parse back to the endpoint and id that built them |
| Api.AccessorShapes | src/services/api.ts:71-108 | getAll and create use the collection path; getById, update and delete use the item path; the verbs are GET/GET/POST/PATCH/DELETE; multipart iff `FormData` |
| Api.WithBearer | src/services/api.ts:14-19 | with a truthy token `Authorization` becomes `Bearer <token>` and every other header is kept; without one the headers are unchanged |
| Api.RequestConfig.constructor | src/services/api.ts:6-11 | a request's config starts with the instance's default headers, `Content-Type: application/json` unless the call overrides it |
| Api.Transport.constructor | src/services/api.ts:6-23 | the client with its interceptors acts on the given storage and starts with no notifications |
| Api.Transport.InterceptRequest | src/services/api.ts:14-20 | the config's headers become the bearer decoration of the old headers by the stored `auth_token` |
| Api.SuccessNotice | src/services/api.ts:29-31 | one success notification, carrying the body's message, if and only if the body has a truthy `message` |
| Api.Transport.InterceptResponse | src/services/api.ts:24-34 | the response is passed on unchanged and the success notice is appended to the notifications |
| Api.Transport.InterceptError | src/services/api.ts:35-67 | the error is always rejected unchanged; exactly one error notification with the ladder's text; `auth_token` is removed on the 401 branch and storage is otherwise untouched |
| Api.Classify | src/services/api.ts:39-64 | the branch of the ladder: the message branch exactly when the body has a truthy message; the network branch whenever there is no response; the generic branch only for a response below 500 with a code other than NETWORK_ERROR |
| Api.ErrorText | src/services/api.ts:39-64 | the shown text is never empty, and is the network text whenever there is no response |
| Api.ClearsToken | src/services/api.ts:45-48 | the token is removed on the Unauthorized branch (a definition; characterised by Api.ClearsTokenIff) |
| Api.ClassifyIsFirstApplicableRule | src/services/api.ts:39-64 | the branch taken is the first of message, error, 401, 403, 404, ≥500, network, generic whose condition holds |
| Api.ClassifyChoosesUniqueRule | src/services/api.ts:39-64 | branch k is taken if and only if rule k applies and no earlier rule does |
| Api.ErrorTextRungs | src/services/api.ts:39-64 | without a truthy message, the shown text is the body's error text when truthy, else the fixed text of 401, 403, 404 or a status of 500 or more, else the network text for code NETWORK_ERROR and the generic text otherwise |
| Api.BadRequestShowsBackendError | src/services/api.ts:40-44 | a 400 whose body is `{error: "X"}` notifies "X" |
| Api.BackendMessageWins | src/services/api.ts:39-48 | a truthy backend message is shown verbatim and the token is kept, even on a 401 |
| Api.ClearsTokenIff | src/services/api.ts:39-48 | the token is removed exactly for a 401 whose body has neither a truthy message nor a truthy error |
| Api.CaptureLoginToken | src/services/api.ts:142-150 | a truthy `access_token` is stored under `auth_token`; otherwise storage is untouched |
| Api.Endpoint | src/services/api.ts:153-323 | no endpoint name contains a slash, so paths parse back uniquely |
| Api.ListKey | src/services/api.ts:122-127 | the list query key of each hook group, as the hooks name it (a definition; Api.MutationInvalidatesOwnList) |
| Api.ItemKey | src/services/api.ts:129-139 | the `getById` key of each hook group; hackathon info has none (a definition) |
| Api.QueryKey | src/services/api.ts:122-139 | `[listKey]` for a list query, `[itemKey, id]` for an item query, `["hackers"]` for `getHackers` (a definition) |
| Api.QueryRequest | src/services/api.ts:122-139 | the GET a query sends: the collection path for list queries, the item path for item queries (a definition; Api.QueryEnabledIffIdSent) |
| Api.QueryEnabled | src/services/api.ts:137 | `enabled: !!id`: an item query is enabled iff its id is truthy; list queries always are (a definition) |
| Api.QueryEnabledIffIdSent | src/services/api.ts:129-139 | a query is held back exactly when its request would address an item with an empty id |
| Api.CallRequest | src/services/api.ts:153-323 | the request each mutation sends (a definition; Api.MutationRequestTargetsOwnEndpoint and Api.SetStatusRequest) |
| Api.InvalidatedKey | src/services/api.ts:153-323 | the key each mutation invalidates on success (a definition; Api.MutationInvalidatesOwnList) |
| Api.CallToast | src/services/api.ts:153-323 | the success text of each mutation, as the hooks write it (a definition; Api.SetStatusRequest) |
| Api.HackerListIsNeverInvalidated | src/services/api.ts:298-323 | `getHackers` fetches the hackers collection under key `["hackers"]`, which no mutation's invalidation matches, even by prefix |
| Api.MutationInvalidatesOwnList | src/services/api.ts:122-323 | every create/update/delete/status call invalidates its own group's list key (`"teams"` for hackers); under React Query's prefix matching the only query it matches is that list query |
| Api.MutationRequestTargetsOwnEndpoint | src/services/api.ts:153-323 | every mutation addresses its own collection (item path for update, delete and status), with the right verb and multipart iff a `FormData` body |
| Api.SetStatusRequest | src/services/api.ts:223-234 | `updateStatus` PATCHes `/registrationformhacker/<id>` with `{verified: status}`, invalidates `"registrations"`, and says "verified" iff status is "yes" |
| Api.SaveCall | src/components/dashboard/TeamMembers.tsx:189-209 | the save dispatch is an update of the edited id when editing and a create otherwise, never both, carrying the form's payload |
| Registration.MatchesSearch | src/components/dashboard/Registration.tsx:65-68 | the search predicate (a definition; Registration.MatchesSearchIffOccurs) |
| Registration.FilterRegistrations | src/components/dashboard/Registration.tsx:64-70 | the shown rows are the loaded registrations that match the search, each kept as often as it occurs, and no others |
| Registration.MatchesSearchIffOccurs | src/components/dashboard/Registration.tsx:64-70 | a registration matches iff the lower-cased term occurs in the lower-cased team name or e-mail, or the term occurs in the contact number |
| Registration.FilterKeepsOrder | src/components/dashboard/Registration.tsx:64-70 | the shown rows keep the order of the loaded list |
| Registration.EmptySearchKeepsAll | src/components/dashboard/Registration.tsx:64-70 | an empty search shows every registration |
| Registration.ContactSearchIsCaseSensitive | src/components/dashboard/Registration.tsx:68 | the contact number is matched case-sensitively |
| Registration.CsvCells | src/components/dashboard/Registration.tsx:85-90 | team name, e-mail, contact number and formatted date of one registration (a definition) |
| Registration.CsvHeader | src/components/dashboard/Registration.tsx:84 | the header row: Team Name, Email, Contact No, Registration Date |
| Registration.CsvRows | src/components/dashboard/Registration.tsx:83-91 | the fixed header row, then one row per registration in list order |
| Registration.CsvLines | src/components/dashboard/Registration.tsx:92 | each line is its row's cells joined by commas |
| Registration.CsvText | src/components/dashboard/Registration.tsx:83-93 | the lines joined by newlines (a definition; Registration.CsvRoundTrip) |
| Registration.CsvRoundTrip | src/components/dashboard/Registration.tsx:83-93 | with no comma or newline in any cell, splitting the text at newlines and commas gives back the header and every row |
| Registration.CsvDoesNotQuote | src/components/dashboard/Registration.tsx:83-93 | no quoting: the line of a team named "A,B" reads back as five cells |
| Registration.NextStatus | src/components/dashboard/Registration.tsx:254-259 | the toggle sends "no" iff the status is "yes", and "yes" otherwise |
| Registration.ToggleTwiceRestores | src/components/dashboard/Registration.tsx:254-259 | toggling twice restores a "yes"/"no" status |
| Registration.ToggleNotifies | src/components/dashboard/Registration.tsx:254-259 | a toggle of a verified registration reports "unverified", otherwise "verified", and refreshes `"registrations"` |
| Registration.InTeam | src/components/dashboard/Registration.tsx:367-370 | the filter's test: the member has an embedded registration whose team name is the registration's (a definition; Registration.MembersOfTeam) |
| Registration.MembersOfTeam | src/components/dashboard/Registration.tsx:367-370 | a member is listed iff it has an embedded registration whose team name equals the selected one, as often as it occurs in the loaded list |
| Registration.MembersOfTeamKeepsOrder | src/components/dashboard/Registration.tsx:367-370 | the listed members keep the loaded order |
| Registration.RegistrationForm.constructor | src/components/dashboard/Registration.tsx:513-519 | all fields start empty and no payment file is chosen |
| Registration.RegistrationForm.ChooseFile | src/components/dashboard/Registration.tsx:521-526 | a picked file becomes the payment file; a cancelled pick changes nothing |
| Registration.RegistrationForm.Submit | src/components/dashboard/Registration.tsx:528-542 | the payload is teamname, email, contactno, password in that order, then `payment` only when a file was chosen |
| Registration.RegistrationPage.constructor | src/components/dashboard/Registration.tsx:59-62 | empty search, no selection, form hidden, nothing issued |
| Registration.RegistrationPage.AddRegistration | src/components/dashboard/Registration.tsx:72-74 | the form opens and nothing else changes |
| Registration.RegistrationPage.DeleteRegistration | src/components/dashboard/Registration.tsx:76-80 | one delete of that id is issued iff the user confirmed |
| Registration.RegistrationPage.ToggleStatus | src/components/dashboard/Registration.tsx:254-259 | one status call with the toggled status is issued |
| Registration.RegistrationPage.Save | src/components/dashboard/Registration.tsx:328-335 | one create with the form's payload is issued |
| Registration.RegistrationPage.CloseForm | src/components/dashboard/Registration.tsx:326-329 | the form is hidden and nothing else changes |
| Registration.RegistrationPage.Search | src/components/dashboard/Registration.tsx:151 | the search term becomes the typed text |
| Registration.RegistrationPage.ShowDetails | src/components/dashboard/Registration.tsx:281 | the chosen registration is selected |
| Registration.RegistrationPage.CloseDetails | src/components/dashboard/Registration.tsx:344 | the selection is cleared |
| TeamMembers.GithubHref | src/components/dashboard/TeamMembers.tsx:147-151 | a value starting with "http" is the link itself; anything else is prefixed with `https://github.com/` |
| TeamMembers.GithubHrefIsUrl | src/components/dashboard/TeamMembers.tsx:147-151 | every link starts with "http", so normalising is idempotent |
| TeamMembers.GithubHrefKeepsIff | src/components/dashboard/TeamMembers.tsx:147-151 | the link equals the stored value iff the value starts with "http" |
| TeamMembers.HttpPrefixedNameIsNotExpanded | src/components/dashboard/TeamMembers.tsx:148 | a user name beginning with "http" (e.g. "httpie") is used as the link unchanged |
| TeamMembers.GithubLink | src/components/dashboard/TeamMembers.tsx:143-159 | a link is shown iff the value is non-empty, and it is the normalised href |
| TeamMembers.FindRegistration | src/components/dashboard/TeamMembers.tsx:263-265 | `find` returns a registration iff one has the id, and then the first one with it |
| TeamMembers.EmbeddedRegistrationId | src/components/dashboard/TeamMembers.tsx:238 | the initial registration id is the edited member's embedded registration id when there is one, and "" otherwise |
| TeamMembers.MemberForm.constructor | src/components/dashboard/TeamMembers.tsx:233-241 | the fields copy the edited member, or are empty when adding; no file is chosen; the preview is the member's image or "" |
| TeamMembers.MemberForm.ChooseFile | src/components/dashboard/TeamMembers.tsx:243-250 | a picked file and its object URL replace the earlier ones; a cancelled pick changes nothing |
| TeamMembers.MemberForm.Attached | src/components/dashboard/TeamMembers.tsx:262-272 | a registration is attached iff an id was chosen and a listed registration has it |
| TeamMembers.MemberForm.Submit | src/components/dashboard/TeamMembers.tsx:252-279 | name, github, email, contactno in order; then `Registrationformhackerid` iff the chosen id is non-empty and found; then `image` iff a file was picked |
| TeamMembers.SubmitUnchangedEdit | src/components/dashboard/TeamMembers.tsx:233-279 | saving an unchanged edit sends the member's own fields, re-attaches its registration iff it is still listed, and sends no image |
| TeamMembers.TeamMembersPage.constructor | src/components/dashboard/TeamMembers.tsx:44-45 | form hidden, nothing edited, nothing issued |
| TeamMembers.TeamMembersPage.EditingId | src/components/dashboard/TeamMembers.tsx:190-192 | the id to update is the edited member's id, present iff a member is edited |
| TeamMembers.TeamMembersPage.AddMember | src/components/dashboard/TeamMembers.tsx:47-50 | clears the edited member and opens the form |
| TeamMembers.TeamMembersPage.EditMember | src/components/dashboard/TeamMembers.tsx:52-55 | the chosen member is edited and the form opens |
| TeamMembers.TeamMembersPage.DeleteMember | src/components/dashboard/TeamMembers.tsx:57-61 | one delete of that id is issued iff the user confirmed |
| TeamMembers.TeamMembersPage.Save | src/components/dashboard/TeamMembers.tsx:189-209 | exactly one call: update of the edited member's id when editing, create otherwise |
| TeamMembers.TeamMembersPage.CloseForm | src/components/dashboard/TeamMembers.tsx:188-203 | the form is hidden and nothing else changes |
| Sponsors.TypeColor | src/components/dashboard/Sponsors.tsx:43-58 | the classes are the table entry of the lower-cased type for platinum, gold, silver, bronze and title, and the default for any other type |
| Sponsors.TypeColorIgnoresCase | src/components/dashboard/Sponsors.tsx:43-44 | a type, its lower-case and its upper-case spelling get the same classes |
| Sponsors.DefaultColorIff | src/components/dashboard/Sponsors.tsx:43-58 | platinum shares the default: the default classes are returned iff the type is not gold, silver, bronze or title in any case |
| Sponsors.Badge | src/components/dashboard/Sponsors.tsx:93-100 | the badge text and classes, or no badge (a definition; Sponsors.BadgeShowsUpperType) |
| Sponsors.BadgeShowsUpperType | src/components/dashboard/Sponsors.tsx:93-100 | a badge is shown iff the type is non-empty; its text is the upper-cased type (the "SPONSOR" fallback is unreachable) and its classes the type colour |
| Sponsors.SponsorForm.constructor | src/components/dashboard/Sponsors.tsx:204-209 | title and type copy the edited sponsor, or are empty; no file is chosen |
| Sponsors.SponsorForm.ChooseFile | src/components/dashboard/Sponsors.tsx:211-218 | a picked file and its object URL replace the earlier ones; a cancelled pick changes nothing |
| Sponsors.SponsorForm.Submit | src/components/dashboard/Sponsors.tsx:220-232 | title then type, then `image` only when a file was picked |
| Sponsors.SubmitUnchangedEdit | src/components/dashboard/Sponsors.tsx:204-232 | saving an unchanged edit sends exactly the sponsor's title and type |
| Sponsors.SponsorsPage.constructor | src/components/dashboard/Sponsors.tsx:24-25 | form hidden, nothing edited, nothing issued |
| Sponsors.SponsorsPage.EditingId | src/components/dashboard/Sponsors.tsx:163-165 | the id to update is the edited sponsor's id, present iff a sponsor is edited |
| Sponsors.SponsorsPage.AddSponsor | src/components/dashboard/Sponsors.tsx:27-30 | clears the edited sponsor and opens the form |
| Sponsors.SponsorsPage.EditSponsor | src/components/dashboard/Sponsors.tsx:32-35 | the chosen sponsor is edited and the form opens |
| Sponsors.SponsorsPage.DeleteSponsor | src/components/dashboard/Sponsors.tsx:37-41 | one delete of that id is issued iff the user confirmed |
| Sponsors.SponsorsPage.Save | src/components/dashboard/Sponsors.tsx:162-183 | exactly one call: update of the edited sponsor's id when editing, create otherwise |
| Sponsors.SponsorsPage.CloseForm | src/components/dashboard/Sponsors.tsx:161-167 | the form is hidden and nothing else changes |
| Partners.PartnerForm.constructor | src/components/dashboard/Partners.tsx:182-186 | the title copies the edited partner, or is empty; no file is chosen |
| Partners.PartnerForm.ChooseFile | src/components/dashboard/Partners.tsx:188-195 | a picked file and its object URL replace the earlier ones; a cancelled pick changes nothing |
| Partners.PartnerForm.Submit | src/components/dashboard/Partners.tsx:197-208 | only the title, then `image` only when a file was picked |
| Partners.SubmitUnchangedEdit | src/components/dashboard/Partners.tsx:182-208 | saving an unchanged edit sends the title alone |
| Partners.PartnersPage.constructor | src/components/dashboard/Partners.tsx:23-24 | form hidden, nothing edited, nothing issued |
| Partners.PartnersPage.EditingId | src/components/dashboard/Partners.tsx:141-143 | the id to update is the edited partner's id, present iff a partner is edited |
| Partners.PartnersPage.AddPartner | src/components/dashboard/Partners.tsx:26-29 | clears the edited partner and opens the form |
| Partners.PartnersPage.EditPartner | src/components/dashboard/Partners.tsx:31-34 | the chosen partner is edited and the form opens |
| Partners.PartnersPage.DeletePartner | src/components/dashboard/Partners.tsx:36-40 | one delete of that id is issued iff the user confirmed |
| Partners.PartnersPage.Save | src/components/dashboard/Partners.tsx:140-161 | exactly one call: update of the edited partner's id when editing, create otherwise |
| Partners.PartnersPage.CloseForm | src/components/dashboard/Partners.tsx:139-145 | the form is hidden and nothing else changes |
| About.Normalise | src/components/dashboard/About.tsx:28-38 | a non-empty array gives its first element; else an object with a non-empty description is used as is; else nothing is adopted |
| About.SaveEnabled | src/components/dashboard/About.tsx:126 | the negation of the `disabled` test (a definition; About.SaveEnabledIff) |
| About.SaveEnabledIff | src/components/dashboard/About.tsx:126 | save is enabled iff no update is pending and the buffer holds a character `trim` keeps |
| About.AboutView.constructor | src/components/dashboard/About.tsx:19-25 | the built-in description without id, not editing, empty buffer |
| About.AboutView.OnData | src/components/dashboard/About.tsx:28-38 | the normalised record and its description are adopted; with nothing to adopt, record and buffer are unchanged |
| About.AboutView.Edit | src/components/dashboard/About.tsx:40-43 | the buffer becomes the shown description and editing starts |
| About.AboutView.Type | src/components/dashboard/About.tsx:147 | the buffer becomes the typed text |
| About.AboutView.Save | src/components/dashboard/About.tsx:45-126 | callable only while editing and while the button is enabled (nothing pending, buffer not blank); with a truthy id, one update of that id with body `{description: buffer}`; without one, no request |
| About.AboutView.SaveSucceeded | src/components/dashboard/About.tsx:53-59 | the record captured at save time with only its description replaced; editing ends |
| About.AboutView.SaveFailed | src/components/dashboard/About.tsx:60-63 | the update is no longer pending, so the button is enabled again; record, buffer, editing and issued calls are unchanged |
| About.AboutView.Cancel | src/components/dashboard/About.tsx:75-119 | callable only while editing with no update pending; the buffer is restored from the record and editing ends |
| About.EditAndSave | src/components/dashboard/About.tsx:40-126 | for a non-blank text, load, edit, save, succeed: one update carrying the text and the record with only its description changed; with no id, no request and the record as loaded, still editing |
| About.EditThenCancel | src/components/dashboard/About.tsx:40-78 | edit then cancel leaves the record, restores the buffer and issues nothing |
| About.FailThenRetry | src/components/dashboard/About.tsx:45-126 | a failed save re-enables the button: saving the same text again issues a second identical update, and its success shows the record with the text |
| App.App.constructor | src/App.tsx:8 | the flag starts false |
| App.App.Startup | src/App.tsx:18-23 | the flag becomes true iff a truthy `auth_token` is stored, and is otherwise left as it was |
| App.App.HandleLogin | src/App.tsx:10-12 | the flag becomes true without reading storage |
| App.App.HandleLogout | src/App.tsx:14-17 | all of storage is cleared and the flag is false |
| App.Open | src/App.tsx:8-23 | a fresh start is signed in iff a non-empty `auth_token` is stored |
| App.LoginThenReload | src/App.tsx:10-23 | after login the flag is true; after a reload it stays true iff a non-empty token was received or already stored |
| App.LogoutThenReload | src/App.tsx:14-23 | after logout and a reload the login screen shows and storage is empty |
| App.UnauthorizedThenReload | src/services/api.ts:39-48 | after a 401 a reload is still signed in iff the error body carried a message or error text |

## Left out

- HTTP transport: axios, the backend, the base-URL lookup (`src/services/api.ts:6-7`) and response parsing are external I/O. A response is a record of its status and its optional `message`, `error` and `access_token`. An error is a record of its optional response and optional code.
- React Query: caching, refetching and the loading, error and pending flags are library behaviour. The model records only which key each query and mutation names. The about page's `isPending` flag is the `pending` slot of `About.AboutView`: `Save` sets it when it issues an update, and `SaveSucceeded` or `SaveFailed` clears it.
- Rendering: JSX markup and classes are not modelled, except the sponsor badge classes and text. Notifications are recorded as a list of toasts, with no display. `alert` calls are not recorded: the about page's no-id alert and the save-error alerts of every form.
- `window.confirm` is a boolean argument. `URL.createObjectURL` is a string argument to the `ChooseFile` of each form with a preview (members, sponsors, partners). The registration form has no preview.
- `console.error` in the `onError` callbacks is logging only and is not modelled.
- HTML `required` attributes make the browser refuse to submit the member, sponsor, partner and registration forms while a required input is empty. These are the text fields, the member form's team select, the sponsor form's type select, the registration form's payment file (always required) and the image input of a new member, sponsor or partner (`required={!member}` and its siblings). The `Submit` methods build the payload for any field values, including ones the browser would not submit. The about page has no `<form>`: its save is a button `onClick`, so the text area's `required` has no effect. Only the button's `disabled` test stops a save, and `About.AboutView.Save` requires it.
- Dates: `toLocaleDateString` depends on locale and clock. The CSV date cell is an arbitrary function argument of `Registration.CsvCells`. The "This Month" and "Today" counters and the "Last updated" line are not modelled.
- Common.Lower: maps ASCII letters only, so it is not full Unicode `toLowerCase`; the same holds for Common.Upper and `toUpperCase`.
- `JSON.stringify` of the attached registration is the value `JsonOf(registration)`. The text of that serialisation is not modelled.
- Ids are strings. The hooks also accept numbers, and a numeric id 0 would be falsy. Neither case is modelled.
- Form inputs: the `onChange` handlers of the sponsor, partner, member and registration forms are plain assignments to the form's public fields, so they have no methods. The search box and the about text area do have methods.
- Concurrency: each page's calls are recorded in the order they are issued. The model does not capture that several mutations can be in flight at once (a delete and a status toggle, say) nor the order in which their callbacks complete. The about page keeps only the latest pending save's captured values in one slot, because its button is disabled while an update is pending.
- Unused backend fields (`createdAt`, `updatedAt` and `deletedAt` of most records, the team label on a member card) are not modelled.
- The login form component (`src/components/Login`) is not part of this model. The request `useLogin` sends is `Api.Login`, and its success handler is `Api.CaptureLoginToken`.
- `src/components/Dashboard.tsx` is not part of this model. It does only section navigation.
- The hackers group's create, update and delete hooks are modelled as calls (`Api.Entity.Hackers`). No component here issues them.

# FreshHupPortal decision rules in Dafny

FreshHupPortal is a support dashboard. A signed-in agent stores Freshdesk
and HubSpot credentials, sees the Freshdesk ticket list enriched with each
requester's contact record, and opens a ticket to read its details, its
conversation thread and the requester's HubSpot record.

This project models the logic that the React components and the HTTP
client wrap around those calls. One Dafny module stands for each source
file:

| module | source file | form |
|---|---|---|
| `Common` | (shared) | `Option`; JavaScript truthiness, `x \|\| null` and `x \|\| fallback`; ASCII `trim`, case and `includes`; number-to-text and loose `==` |
| `Entities` | (shared) | the records exchanged with the backend |
| `Api` | `src/lib/api.ts` | `request` as a function from a transport outcome to an envelope; `ApiService` as a class with `token` and `storage` fields |
| `ConfigurationForms` | `src/components/ConfigurationForms.tsx` | validation as a function; the form as a class |
| `LoginForm` | `src/components/LoginForm.tsx` | validation as a function; the form as a class |
| `App` | `src/App.tsx` | the application state as a class |
| `AuthContainer` | `src/components/AuthContainer.tsx` | outcome classification as functions; the container as a class |
| `Dashboard` | `src/components/Dashboard.tsx` | colour, label, count and enrichment rules as functions; the dashboard state as a class |
| `TicketDetailModal` | `src/components/TicketDetailModal.tsx` | label, display and lookup rules as functions; the dialog state as a class |
| `Header` | `src/components/Header.tsx` | the initials as functions |

Every remote call is a parameter of type
`Transport<T> = Ok(body) | Err(serverMessage, errorMessage)`. `Ok` is the
axios response, with `Ok(None)` for a JSON `null` body; `Err` is the rejection, carrying `err.response.data.message`
and `err.message`. `Api.Request` turns it into the envelope the components
see. A `try`/`catch` around an awaited call receives a `Call<T>`, which is
either `Returned(value)` or `Threw`. Lemmas show that through the gateway
the catch branches are never taken. A notification is a `Notice`: either
`Toast(severity, text)`, or `RuntimeErrorToast(prefix)` for the error
toasts raised when the code reads a field of `undefined`. Component state
lives in class fields. Handlers are methods with `modifies` clauses that
return the toast they raise or the value they pass to a callback.

Some behaviours of the code are easy to miss; the model follows the code:

- A failed ticket-list fetch is not surfaced, and the list keeps its
  previous value. `request` never throws, so for a list or `null` body the
  catch at `src/components/Dashboard.tsx:98-100` is unreachable.
- A failed per-ticket contact lookup leaves the ticket as it was. The
  fields are set to null only in the unreachable catch.
- A failed ticket-detail fetch is not surfaced. Loading does not stop
  either: the conversations are still fetched.
- A failed HubSpot lookup shows the gateway's message. The generic
  "Failed to load HubSpot contact data" belongs to the unreachable catch.
  A failed lookup also does not clear a contact found earlier, so the
  panel keeps showing the old contact.
- A failed Freshdesk contact lookup in the dialog always reaches the
  error notification and skips the conversation fetch.
- The session probe runs only when `isLoggedIn` becomes true, never at
  start-up.
- A successful probe still raises a warning toast with no text, because
  its envelope carries no message and `undefined != "success"` holds.
- There is no stale-response guard keyed by ticket id.
- The ticket dialog stays mounted and keeps its state from one ticket to
  the next. Opening a ticket whose requester has no e-mail starts no
  HubSpot lookup, so the dialog keeps showing the previous ticket's HubSpot
  contact (`TicketDetailModal.ModalState.SetProps`, then `OpenEffect`).

## Model

| member | source | states |
|---|---|---|
| `Common.TrimEmptyIffBlank` | src/components/LoginForm.tsx:30 | `trim()` gives "" exactly when every character is white space |
| `Common.IncludesIffOccurs` | src/components/AuthContainer.tsx:25 | `includes` is true exactly when the pattern occurs at some position |
| `Common.Put` | src/components/ConfigurationForms.tsx:35-62 | a message is recorded under its field; no message leaves the map as it was; every other field's entry is kept |
| `Common.ToLowerSingleDigit` | src/components/Dashboard.tsx:133 | `toLowerCase()` gives a single digit exactly when the text already is that digit |
| `Common.SingleDigitText` | src/components/Dashboard.tsx:133 | an integer's `toString()` is a given single digit exactly when the integer is that digit |
| `Entities.IsConfigured` | src/components/Dashboard.tsx:32 | Freshdesk counts as configured only with both the API key and the domain set, so the empty configs never are |
| `Entities.WithRequester` | src/components/TicketDetailModal.tsx:95 | the contact's name and e-mail replace the requester fields, each null when falsy; every other field is kept |
| `Api.Request` | src/lib/api.ts:34-44 | never fails; success iff the transport succeeded, with the body as data; on failure no data and a non-empty message: the server's, else the error's, else "Request failed" |
| `Api.RegisterAndLoginGuardsAgree` | src/lib/api.ts:53-72 | `register`'s guard (success and token) and `login`'s guard (token) agree on every outcome: a token is adopted iff the call succeeded with a truthy token |
| `Api.ApiService.constructor` | src/lib/api.ts:18-19 | in a browser the token is the `auth_token` storage entry (null if absent); outside one it is null |
| `Api.ApiService.Intercept` | src/lib/api.ts:28-31 | `Authorization: Bearer <token>` is added iff the token is truthy; no other header changes |
| `Api.ApiService.Register` | src/lib/api.ts:46-59 | returns the envelope unchanged; token and storage entry change only on success with a truthy token; token and storage stay in step |
| `Api.ApiService.Login` | src/lib/api.ts:61-75 | returns the envelope unchanged; the token is adopted and stored whenever the data carries one; the token changes only on success |
| `Api.ApiService.IsAuthenticated` | src/lib/api.ts:126-128 | authenticated only with a non-empty token; a null or empty token is not |
| `Api.ApiService.Logout` | src/lib/api.ts:121-128 | token null, `auth_token` removed, `isAuthenticated()` false, no Authorization header afterwards |
| `ConfigurationForms.DomainTestIsPattern` | src/components/ConfigurationForms.tsx:41 | the unanchored `/^[a-zA-Z0-9-]+/` matches exactly when the first character is an ASCII letter, digit or `-` |
| `ConfigurationForms.Validate` | src/components/ConfigurationForms.tsx:35-62 | errors only for the active tab's fields |
| `ConfigurationForms.DomainMessages` | src/components/ConfigurationForms.tsx:39-43 | a blank domain gets "Domain name is required"; a non-blank one failing the pattern gets the invalid-domain text; otherwise no error |
| `ConfigurationForms.ApiKeyMessages` | src/components/ConfigurationForms.tsx:45-49 | a blank key gets "API key is required"; otherwise an untrimmed length below 10 gets "API key seems too short" |
| `ConfigurationForms.TokenMessages` | src/components/ConfigurationForms.tsx:52-57 | a blank token gets "Access token is required"; otherwise a length below 20 gets "Access token seems too short" |
| `ConfigurationForms.ValidatePassesIff` | src/components/ConfigurationForms.tsx:60-61 | the error map is empty exactly when every field of the active tab is acceptable |
| `ConfigurationForms.SetFieldOnlyThatField` | src/components/ConfigurationForms.tsx:87-92 | an edit changes the named field and no other |
| `ConfigurationForms.FormState.constructor` | src/components/ConfigurationForms.tsx:26-29 | the form starts from the stored configs, with no errors, not loading, on the Freshdesk tab |
| `ConfigurationForms.FormState.ReceiveConfigs` | src/components/ConfigurationForms.tsx:32-34 | new stored configs reset the form data |
| `ConfigurationForms.FormState.SelectTab` | src/components/ConfigurationForms.tsx:123-129 | the HubSpot tab cannot be chosen while Freshdesk is unconfigured and no HubSpot token is stored |
| `ConfigurationForms.FormState.ValidateForm` | src/components/ConfigurationForms.tsx:35-62 | records the error map; true iff the active tab's fields are acceptable |
| `ConfigurationForms.FormState.HandleSubmit` | src/components/ConfigurationForms.tsx:64-85 | `onConfigUpdate(formData, activeTab)` is invoked iff validation passes; loading ends false |
| `ConfigurationForms.FormState.HandleChange` | src/components/ConfigurationForms.tsx:87-101 | only the named field changes and only its error is cleared |
| `LoginForm.EmailTestIsPattern` | src/components/LoginForm.tsx:32 | the test accepts exactly the strings matching `^[^\s@]+@[^\s@]+\.[^\s@]+$` |
| `LoginForm.EmailMessages` | src/components/LoginForm.tsx:30-34 | blank e-mail gets "Email is required"; a non-blank one not matching the pattern gets the invalid-address text; otherwise no error |
| `LoginForm.PasswordMessages` | src/components/LoginForm.tsx:36-40 | only the empty password is missing; a shorter one than 6 gets the too-short text |
| `LoginForm.ValidatePassesIff` | src/components/LoginForm.tsx:42-43 | the error map is empty exactly when both fields are acceptable |
| `LoginForm.SetFieldOnlyThatField` | src/components/LoginForm.tsx:62-64 | an edit changes the named field and leaves the other |
| `LoginForm.FormState.constructor` | src/components/LoginForm.tsx:19-25 | empty fields, no errors, not loading |
| `LoginForm.FormState.ValidateForm` | src/components/LoginForm.tsx:27-44 | records the error map; true iff both fields are acceptable |
| `LoginForm.FormState.HandleSubmit` | src/components/LoginForm.tsx:46-60 | `onLogin` is invoked iff validation passes, with name "User" and the entered e-mail and password; loading ends false |
| `LoginForm.FormState.HandleChange` | src/components/LoginForm.tsx:62-69 | only the named field changes and only its error is cleared |
| `Header.ShowsUserBlock` | src/components/Header.tsx:18 | the user block is rendered only when signed in and a user is present; either alone is not enough |
| `Header.SplitOnSpace` | src/components/Header.tsx:23 | `split(" ")` gives one more piece than there are spaces |
| `Header.SplitJoinRoundTrip` | src/components/Header.tsx:22-23 | joining the pieces with single spaces gives the name back; no piece contains a space |
| `Header.FirstChars` | src/components/Header.tsx:24-25 | at most one character per piece |
| `Header.FirstCharsAreWordStarts` | src/components/Header.tsx:22-25 | the first characters of the pieces are exactly the non-space characters that start the name or follow a space |
| `Header.InitialsAreWordStarts` | src/components/Header.tsx:22-26 | the initials are the upper-cased word starts, so empty pieces contribute nothing |
| `Header.InitialsLength` | src/components/Header.tsx:22-26 | at most the number of spaces plus one initials |
| `AuthContainer.LoginOutcomes` | src/components/AuthContainer.tsx:16-40 | success iff the call returned a user, who is passed on; success toast iff the message contains "Login", else warning; a missing message ends in the error path; failure shows the gateway's message or "Login failed" and rethrows |
| `AuthContainer.RegisterOutcomes` | src/components/AuthContainer.tsx:42-59 | success iff the call returned a user; the toast is the server message or "Account created successfully!"; failure shows the gateway's message or "Registration failed" and rethrows |
| `AuthContainer.Container.constructor` | src/components/AuthContainer.tsx:13-14 | the mode starts as login |
| `AuthContainer.Container.SwitchToLogin` | src/components/AuthContainer.tsx:61 | the mode becomes login |
| `AuthContainer.Container.SwitchToRegister` | src/components/AuthContainer.tsx:62 | the mode becomes register |
| `AuthContainer.Container.HandleLogin` | src/components/AuthContainer.tsx:16-40 | the login outcome above; a returned token is adopted and stored under `auth_token`, otherwise token and storage are unchanged, and they stay in step; loading ends false |
| `AuthContainer.Container.HandleRegister` | src/components/AuthContainer.tsx:42-59 | the register outcome above; a returned token is adopted and stored under `auth_token`, otherwise token and storage are unchanged, and they stay in step; loading ends false |
| `App.AtMostOneSave` | src/App.tsx:70-86 | a submission never issues both save calls |
| `App.SaveFailureToastAsWrittenDropsServerMessage` | src/App.tsx:76-98 | as written, a rejected save that carries "Invalid API key" is shown as "Configuration update failed" |
| `App.SaveFailureMessageIsServerMessage` | src/App.tsx:76-98 | corrected: a failed save shows the gateway's message, the server's when it sent one |
| `App.AppState.constructor` | src/App.tsx:11-18 | signed out, no user, empty configs, not loading |
| `App.AppState.HandleAuthSuccess` | src/App.tsx:48-52 | user set and signed in, so the header shows the user block |
| `App.AppState.HandleLogout` | src/App.tsx:54-65 | the client forgets its token; user cleared, signed out, all three configs ""; info toast "Logged out successfully" |
| `App.AppState.CheckAuthStatus` | src/App.tsx:25-46 | signed in, user and configs set only when the probe succeeded with a user; warning toast iff the message is not "success", so a successful probe also warns; loading ends false |
| `App.AppState.LoggedInEffect` | src/App.tsx:20-46 | the probe runs only while signed in, and then leaves the state exactly as `CheckAuthStatus` states; otherwise nothing changes and no toast is raised |
| `App.AppState.HandleConfigUpdate` | src/App.tsx:67-99 | the save call is issued per tab; a failed save, as written, rejects with an empty message and the toast "Configuration update failed", and keeps the stored configs; otherwise the stored configs become the submitted ones, with one success toast per issued save |
| `Dashboard.StatusColorCases` | src/components/Dashboard.tsx:114-130 | 2, 3 and 4 have distinct colours and everything else is grey |
| `Dashboard.PriorityColorOfNumber` | src/components/Dashboard.tsx:132-147 | a numeric priority 4, 3, 2, 1 is red-900, red-500, yellow, green; any other number is grey |
| `Dashboard.PriorityColorOfString` | src/components/Dashboard.tsx:132-147 | for every text: red-900 iff "4", red-500 iff "3", yellow iff "medium" in any case or "2", green iff "low" in any case or "1", grey otherwise; null is grey |
| `Dashboard.StatusTextRaw` | src/components/Dashboard.tsx:307-316 | raw exactly when the status is none of 2 to 5 and not loosely 6; the string "6" is "Waiting on Customer" but the string "2" is raw |
| `Dashboard.PriorityColorMatchesText` | src/components/Dashboard.tsx:318-329 | a numeric priority is coloured iff it has a label; the word "medium" is coloured but shown raw |
| `Dashboard.OpenCount` | src/components/Dashboard.tsx:204 | never more than the number of tickets |
| `Dashboard.OpenCountAppend` | src/components/Dashboard.tsx:204 | the open count of two lists is the sum of their counts |
| `Dashboard.OpenCountExtremes` | src/components/Dashboard.tsx:204 | the count is the whole list iff every ticket has status 2 or "Open", and zero iff none has |
| `Dashboard.RequesterNeverBlank` | src/components/Dashboard.tsx:295 | name, else a non-zero id, else "Unknown"; never blank |
| `Dashboard.Enrich` | src/components/Dashboard.tsx:71-91 | enrichment never changes a ticket's id, subject, status, priority, source or requester id; the catch branch nulls e-mail and name and empties the conversations |
| `Dashboard.EnrichThroughGateway` | src/components/Dashboard.tsx:71-91 | success writes the contact's e-mail and name, each null when falsy; failure changes nothing; conversations untouched; a second application changes nothing more |
| `Dashboard.EnrichedRowShowsContactName` | src/components/Dashboard.tsx:77-81 | a row rendered after a lookup that returns a named contact shows that name |
| `Dashboard.DashboardState.constructor` | src/components/Dashboard.tsx:25-30 | empty lists, not loading, no ticket selected, modal closed |
| `Dashboard.DashboardState.LoadTickets` | src/components/Dashboard.tsx:62-101 | a successful fetch publishes its list or []; a failed one leaves the list and raises nothing |
| `Dashboard.DashboardState.EnrichmentSettled` | src/components/Dashboard.tsx:71-91 | one ticket of the published list is enriched in place; nothing else changes, the open count included |
| `Dashboard.DashboardState.LoadWebhookLogs` | src/components/Dashboard.tsx:103-112 | a successful fetch replaces the logs or sets []; a failed one leaves them |
| `Dashboard.DashboardState.ConfiguredEffect` | src/components/Dashboard.tsx:32-60 | tickets and logs load only when Freshdesk is configured; loading ends false |
| `Dashboard.DashboardState.HandleTicketClick` | src/components/Dashboard.tsx:164-167 | the ticket is selected and the modal is open |
| `Dashboard.DashboardState.HandleCloseTicketModal` | src/components/Dashboard.tsx:169-172 | the modal is closed and nothing is selected |
| `TicketDetailModal.StatusInfoCases` | src/components/TicketDetailModal.tsx:113-128 | 2 to 6 have their own labels; anything else, the string "2" included, is "Unknown" in grey |
| `TicketDetailModal.PriorityInfoCases` | src/components/TicketDetailModal.tsx:130-143 | 1 to 4 are Low, Medium, High, Urgent, matching the dashboard's labels; anything else is "Unknown" in grey |
| `TicketDetailModal.SourceLabelRoundTrip` | src/components/TicketDetailModal.tsx:145-162 | 1, 2, 3, 7, 9, 10 have distinct labels read back to their codes; every other code is "Unknown" |
| `TicketDetailModal.StatusAgreesWithDashboard` | src/components/TicketDetailModal.tsx:113-128 | the dialog's status colour differs from the dashboard's only for 2; the labels of 2 to 6 agree |
| `TicketDetailModal.SourceShownCases` | src/components/TicketDetailModal.tsx:276-283 | no row without a source; a 0 source renders the number 0; otherwise the label |
| `TicketDetailModal.RequesterShownCases` | src/components/TicketDetailModal.tsx:261 | the e-mail, else the requester id, else nothing; it agrees with the list when neither e-mail nor name is set and the id is non-zero |
| `TicketDetailModal.ConversationAuthorCases` | src/components/TicketDetailModal.tsx:395-407 | "Support Agent"/"A" iff the user id is non-zero, else "Customer"/"C" |
| `TicketDetailModal.LookupThroughGateway` | src/components/TicketDetailModal.tsx:65-82 | found iff a body came back; a failed call shows the gateway's message; an empty success shows "No HubSpot contact found for this email" |
| `TicketDetailModal.PanelPrecedence` | src/components/TicketDetailModal.tsx:321-377 | loading first, then a held contact, then a truthy error, else nothing |
| `TicketDetailModal.ContactNameShownCases` | src/components/TicketDetailModal.tsx:338-340 | "Not provided" for an empty name; otherwise the trimmed name, which is empty only for a blank name |
| `TicketDetailModal.DetailPaths` | src/components/TicketDetailModal.tsx:90-100 | the error path is taken iff the ticket call succeeded and it or the contact call brought no data; the HubSpot lookup runs iff the contact call returned an e-mail; the two exclude each other |
| `TicketDetailModal.ModalState.constructor` | src/components/TicketDetailModal.tsx:51-57 | no ticket, no conversations, no contact, no error, nothing loading |
| `TicketDetailModal.ModalState.LoadHubSpotContact` | src/components/TicketDetailModal.tsx:65-82 | a found contact replaces the held one and clears the error; otherwise the error text is set and the held contact stays; loading ends false |
| `TicketDetailModal.ModalState.LoadTicketDetails` | src/components/TicketDetailModal.tsx:84-111 | without an id nothing changes; otherwise ticket, merged requester, HubSpot lookup and conversations as the paths above decide, the error notification iff the error path, and loading ends false |
| `TicketDetailModal.ModalState.SetProps` | src/components/TicketDetailModal.tsx:7-10 | new props replace the id and the open flag; ticket, conversations, contact, error and loading flags are kept |
| `TicketDetailModal.ModalState.OpenEffect` | src/components/TicketDetailModal.tsx:59-63 | details load only when the dialog is open and an id is set, and then leave the state exactly as `LoadTicketDetails` states; otherwise nothing changes and no notification is raised |

## Left out

- The axios instance, base URL, endpoint paths and `encodeURIComponent`
  are not modelled. Each remote call is a transport-outcome parameter.
- The SSR branch of the client constructor is not modelled as such. The
  `inBrowser` parameter stands for `typeof window !== "undefined"`.
- Toast delivery, the `toast.isActive` de-duplication with id 12, and
  `console` output are not modelled. Only the severity and text of each
  toast are kept.
- `Dashboard.DashboardState.EnrichmentSettled`: the enrichment mutates
  the ticket objects already published by `setTickets` and calls no state
  setter, so it triggers no re-render. The first render always shows the
  tickets before enrichment, and an enriched name appears only once some
  unrelated state change re-renders the list. The model keeps only the
  updated list, not which version is on screen.
- A 2xx ticket-list body that is truthy but not an array makes
  `tickets.map` throw, which reaches the catch at
  `src/components/Dashboard.tsx:98-100`. List bodies are typed as lists,
  so this path is not modelled.
- Concurrency is not modelled: the fire-and-forget enrichment, `Promise.all`
  in `loadData`, effect scheduling, and races between late responses.
  Enrichment is one sequential step per ticket (`EnrichmentSettled`), and
  `ConfiguredEffect` runs the two fetches one after the other.
- JSX layout, icons, the dashboard and dialog tab switches,
  `dangerouslySetInnerHTML`, tags, attachments and the lifecycle-stage
  formatting are presentation and are not modelled.
- `formatDate` and the JSON rendering of webhook payloads depend on the
  locale and the runtime, so they are not modelled.
- JavaScript white space, `trim`, `toLowerCase` and `toUpperCase` are
  modelled on ASCII only.
- `RegisterForm` is not part of this model; only the handler it calls is.
- Configs absent from the probe's user object are modelled as "" rather
  than `undefined`.
- `AuthContainer.LoginOutcomes`: when a logged-in user arrives without a
  message, the error toast's text is the engine's TypeError message, which
  is not modelled. Only the path (error toast, rethrow) is stated.
- `TicketDetailModal.ModalState.LoadTicketDetails`: the error notification
  on the exception path is stated as its fixed prefix
  "Failed to load ticket details: ". The engine's TypeError text that
  follows it is not modelled.
- `Dashboard.StatusTextRaw`: the loose `== 6` converts strings to numbers
  for trimmed decimal digits only. Forms such as "+6", "6.0", "0x6" or
  "6e0" are treated as not equal to 6.
- `TicketDetailModal.DetailPaths` and `TicketDetailModal.ModalState.LoadTicketDetails`:
  a 2xx response whose body is the empty string is not distinguished from
  a `null` body. Both are `Ok(None)` and take the exception path, while the
  code throws only for `null`: reading a field of `""` gives `undefined`
  and the load goes on.
- Lengths and first characters are counted per character, not per UTF-16
  code unit. So the API-key and token length checks
  (`ConfigurationForms.ApiKeyMessages`, `ConfigurationForms.TokenMessages`),
  the domain pattern's first character (`ConfigurationForms.DomainTestIsPattern`),
  the password length (`LoginForm.PasswordMessages`) and the initials
  (`Header.FirstChars`) differ from the code for characters outside the
  Basic Multilingual Plane.
- `App.AppState.CheckAuthStatus`: the catch branch is not modelled,
  because the gateway never throws.

## Findings

| source | as written | input that shows it | evidently intended | confidence | as-written member | corrected member |
|---|---|---|---|---|---|---|
| src/App.tsx:76-98 | a failed save throws `Error(response.error)`, but the envelope from `request` has no `error` field, so the toast always reads "Configuration update failed" | a save rejected with server message "Invalid API key" | the toast shows the gateway's message (`response.message`) | not executed | `App.SaveFailureToastAsWrittenDropsServerMessage` | `App.SaveFailureMessageIsServerMessage` |

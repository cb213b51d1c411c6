# HealthX in Dafny

HealthX is a health-care web application for remote areas. It has an
Express backend on Firebase (accounts, appointments, disease history, and a
hospital search over OpenStreetMap) and a React frontend (a session store,
guarded routes, a hospital finder with an offline fallback, an AI doctor
with a local keyword fallback, a symptom chat, a doctor directory with
booking, and a bilingual disease encyclopedia).

This project models that core and proves what it promises:

- **Backend handlers.** They are functions from the store and the request
  to the new store and the HTTP reply (`Http.Reply`). Each answer from
  Firebase Auth, Firestore, the map service, the clock or an id generator
  is an input of type `Http.Ext`: a value, or a failure with its message.
- **Result-building loops.** The loops that push results (doctor and
  patient listings, the doctor list) are methods. Each is proved equal to
  a filter over the store.
- **Patient listing sort.** It is sorted in place in an array
  (`Sorting.SortInPlace`).
- **Frontend components.** Each component's state is a class whose
  methods do what the component's handlers do. The pure parts (filters,
  pagination, URLs, route decisions, keyword matching) are functions with
  lemmas.

Modules:

| module | what it holds |
|---|---|
| `Wrappers`, `Http` | optional values; replies, outcomes of outside calls, `{count, data}` listings |
| `Text` | `toLowerCase` (ASCII letters), `includes`, `trim`, `split(sep)[0]`, `x \|\| default`, string order |
| `Seqs`, `Sorting` | `filter`/`map` and their laws; stable sorting with a comparator and an in-place insertion sort |
| `Appointments`, `Accounts`, `Hospitals`, `Diseases` | the backend controllers |
| `AuthContext`, `Routing` | the session provider and `ProtectedRoute` |
| `HospitalFinder`, `AiDoctor`, `SymptomTracker`, `DoctorList`, `DiseaseWiki` | the frontend components |

## Model

| member | source | states |
|---|---|---|
| Appointments.CreateAppointment | backend/src/controllers/appointmentController.js:4-38 | 400 "Missing required fields" exactly when doctorId, patientId, date or time is missing or empty; nothing stored on any rejection; 201 with the new id appended at the end, stamped with the creation time, on success; 500 when the write fails |
| Appointments.CreatedIsPending | backend/src/controllers/appointmentController.js:14-24 | a created appointment is pending, keeps the requested doctor, patient, date, time and optional names, carries the creation time, and its reason defaults to "" |
| Appointments.CreatePreservesInvariant | backend/src/controllers/appointmentController.js:14-26 | booking keeps every stored status among pending/accepted/rejected and, given a fresh id, keeps ids unique |
| Appointments.SetStatus | backend/src/controllers/appointmentController.js:72 | only the status of the documents with that id changes; every other field and document stays as it was |
| Appointments.UpdateAppointmentStatus | backend/src/controllers/appointmentController.js:63-80 | 400 "Invalid status" exactly when the status is not accepted/rejected; success exactly when the status is valid, the document exists and the write succeeds, and then the store is `SetStatus` and the body "Appointment " followed by the status; no change on rejection; 500 otherwise |
| Appointments.UpdatePreservesInvariant | backend/src/controllers/appointmentController.js:68-72 | a status update keeps every status known and the ids unique |
| Appointments.SetStatusIdempotent | backend/src/controllers/appointmentController.js:72 | writing the same status twice is the same as writing it once |
| Appointments.OnlyDecisionsAreWritten | backend/src/controllers/appointmentController.js:68-72 | after any update request, an appointment's status is unchanged, accepted or rejected |
| Appointments.GetDoctorAppointments | backend/src/controllers/appointmentController.js:41-60 | the loop's result is exactly the doctor's documents with their ids, in store order, and count equals length; 500 when the query fails |
| Appointments.ForDoctorExact | backend/src/controllers/appointmentController.js:44-54 | `ForDoctor`, the doctor's query: a document is listed iff it is stored with that doctorId; the listing is a subsequence of the store |
| Appointments.EarlierIsTotalPreorder | backend/src/controllers/appointmentController.js:96 | the (date, time) order is total and transitive, so the sort has a well-defined result |
| Appointments.GetPatientAppointments | backend/src/controllers/appointmentController.js:83-104 | the reply holds exactly the patient's documents (as a multiset), sorted by date then time, and count equals length; 500 when the query fails |
| Appointments.ForPatientExact | backend/src/controllers/appointmentController.js:86-93 | `ForPatient`, the patient's query: a document is listed iff it is stored with that patientId |
| Accounts.Get | backend/src/controllers/authController.js:62-64 | a profile is found iff a document with that id exists, and it is the profile of the last document with that id |
| Accounts.Replace | backend/src/controllers/authController.js:21 | rewriting id: each position holds the new profile where the id matches and the old document elsewhere |
| Accounts.Put | backend/src/controllers/authController.js:21 | `doc(uid).set(...)`: the written document is in the collection, every other document is one that was there under another id, and every document under another id stays |
| Accounts.GetPut | backend/src/controllers/authController.js:21-30 | `doc(uid).set(...)` then reading uid gives the written profile; every other id reads as before |
| Accounts.Register | backend/src/controllers/authController.js:4-49 | 400 exactly when email, password or name is missing, and then nothing is stored; otherwise 500 with the message of the first step that fails (account creation, profile write, sign-in); the profile is stored once the account and write succeed, even if sign-in then fails; 201 with uid, token, refresh token, name, email and role on success |
| Accounts.RegisteredRoleIsStored | backend/src/controllers/authController.js:21-43 | the role replied equals the role stored, "patient" by default; stored specialty and experience default to "" (and are present) |
| Accounts.Login | backend/src/controllers/authController.js:51-79 | 400 exactly when email or password is missing; any sign-in or lookup failure gives 401 "Invalid credentials"; on success the sign-in's token, refresh token and user id; role and name come from the profile, so a profile without a role gives a reply without one; a missing profile gives "patient" and "" |
| Accounts.LoginAfterRegister | backend/src/controllers/authController.js:59-74 | an account that registered logs in with the role and name it registered with |
| Accounts.GetDoctors | backend/src/controllers/authController.js:81-101 | the loop's result equals the doctor cards of the users whose role is doctor, in store order, and count equals length; 500 when the query fails |
| Accounts.DoctorCardsExact | backend/src/controllers/authController.js:83-94 | a card is listed iff it projects a user whose role is doctor; specialty and experience are never empty, missing or empty ones shown as "General Physician" and "N/A" |
| Hospitals.Coord | backend/src/controllers/hospitalController.js:47-48 | a nonzero own coordinate is used, otherwise the centre's |
| Hospitals.Normalise | backend/src/controllers/hospitalController.js:40-49 | an element becomes an ONLINE entry with its id; a present name or speciality tag is copied, else the default; name, type and address are never empty; the phone is the tag exactly when it is non-empty; each coordinate is `Coord` of the element's own and its centre's |
| Hospitals.NearbyHospitals | backend/src/controllers/hospitalController.js:16-64 | 400 exactly when lat or lon is missing; 500 "Failed to fetch external data" when the map service fails; otherwise 200 with the data equal to `Pipeline` of the elements (sorted by distance, see `PipelineCorrect`) and count equal to length |
| Hospitals.LocatedExact | backend/src/controllers/hospitalController.js:40-55 | the located entries are exactly the normalised elements with both coordinates, each with its distance |
| Hospitals.PipelineCorrect | backend/src/controllers/hospitalController.js:40-58 | `Pipeline` (normalise, keep entries with coordinates, add distances, sort) is sorted by distance, is a permutation of the located entries, and every entry is ONLINE with a name, a type, an address and nonzero coordinates |
| Hospitals.AddressFallback | backend/src/controllers/hospitalController.js:43-45 | the address is the city, else the street, else "Address not available"; name and type default to "Unnamed Hospital" and "General Hospital" |
| Diseases.AddDisease | backend/src/controllers/diseaseController.js:3-25 | 400 "Missing fields" exactly when userId, name or date is missing; 500 when the write fails; 200 with the id, and the record appended to that user's collection, on success |
| Diseases.AddOnlyTouchesOwner | backend/src/controllers/diseaseController.js:11-17 | adding changes no other user's collection, and the owner's next listing contains the new record |
| Diseases.LaterOrSameIsTotalPreorder | backend/src/controllers/diseaseController.js:31 | the date-descending order is total and transitive |
| Diseases.GetDiseases | backend/src/controllers/diseaseController.js:27-44 | 500 exactly when the query fails; otherwise 200 with `Listed`, the user's records with their ids latest date first (see `ListedIsPermutation`) |
| Diseases.ListedIsPermutation | backend/src/controllers/diseaseController.js:31-38 | `Listed`, the query ordered by date descending, is a permutation of the user's records, latest date first |
| Sorting.InsertionSortSorted | backend/src/controllers/hospitalController.js:56 | sorting with a total preorder gives a sorted permutation |
| Sorting.SortInPlace | backend/src/controllers/appointmentController.js:96 | the array ends sorted and holds the same elements |
| AuthContext.UseAuth | frontend/src/context/AuthContext.tsx:19-25 | outside a provider the result is the error "useAuth must be used within an AuthProvider"; inside, the provider's value |
| AuthContext.SessionUser | frontend/src/components/Login.tsx:31 | the user kept after login carries the reply's id, e-mail, name and role, the role as the backend sent it |
| AuthContext.ParseSerialize | frontend/src/context/AuthContext.tsx:40-52 | reading back a stored user (id, e-mail, name, role) gives the same user |
| AuthContext.Restore | frontend/src/context/AuthContext.tsx:33-47 | a user is restored only when both keys hold text, and then exactly the parsed stored user, storage untouched; without both keys nothing is restored and storage is untouched; a stored user that does not parse removes both keys |
| AuthContext.RestoreAfterLogin | frontend/src/context/AuthContext.tsx:33-54 | a session saved by login with a token is restored on reload, storage unchanged |
| AuthContext.RestoreAfterLogout | frontend/src/context/AuthContext.tsx:33-60 | after logout a reload restores no one and changes nothing |
| AuthContext.LogoutKeepsOtherKeys | frontend/src/context/AuthContext.tsx:56-58 | logout touches only the token and user keys |
| AuthContext.AuthProvider.constructor | frontend/src/context/AuthContext.tsx:28-29 | no user, loading |
| AuthContext.AuthProvider.Initialise | frontend/src/context/AuthContext.tsx:31-48 | the user and storage afterwards are those `Restore` gives; loading ends false |
| AuthContext.AuthProvider.Login | frontend/src/context/AuthContext.tsx:50-54 | token and serialised user stored under their keys; current user set |
| AuthContext.AuthProvider.Logout | frontend/src/context/AuthContext.tsx:56-60 | both keys removed; current user null |
| Routing.HomeFor | frontend/src/App.tsx:27 | "/dashboard" exactly when the page requires a doctor, else "/doctor-dashboard" |
| Routing.ProtectedRoute | frontend/src/App.tsx:16-31 | loading shows the placeholder; no user redirects to /login; the page is shown iff the user is signed in and has no role mismatch; a mismatch redirects by the required role |
| Routing.AllowedUsers | frontend/src/App.tsx:26-30 | a signed-in user sees the page iff no role is required, the user has none, or the roles agree |
| Routing.RoleLessProfilePassesGuards | backend/src/controllers/authController.js:62-73 | a stored profile without a role logs in with no role, and that session passes every role guard of App.tsx |
| Routing.RedirectLeavesRole | frontend/src/App.tsx:26-28 | a doctor-guard failure redirects to /dashboard and a patient-guard failure to /doctor-dashboard, and only users with a different role are redirected |
| HospitalFinder.VisibleExact | frontend/src/components/HospitalFinder.tsx:177 | the list drops exactly the entries named "Unnamed Hospital" and keeps the rest in order |
| HospitalFinder.TotalPages | frontend/src/components/HospitalFinder.tsx:178 | the page count is the ceiling of n/20: n ≤ 20·pages < n + 20, and 0 exactly for an empty list |
| HospitalFinder.SliceIndex | frontend/src/components/HospitalFinder.tsx:180 | `slice` counts a negative index from the end and clamps to the length |
| HospitalFinder.Slice | frontend/src/components/HospitalFinder.tsx:180 | for 0 ≤ start ≤ end the slice is the clamped range; an end before the start gives nothing |
| HospitalFinder.PageWindow | frontend/src/components/HospitalFinder.tsx:179-180 | page p shows entries (p-1)·20 up to min(p·20, n), at most 20, and at least one when p is a real page |
| HospitalFinder.PagesArePrefix | frontend/src/components/HospitalFinder.tsx:178-180 | pages 1..k in order are the first 20·k entries |
| HospitalFinder.PagesCoverList | frontend/src/components/HospitalFinder.tsx:178-180 | pages 1..totalPages in order reproduce the whole list |
| HospitalFinder.NavigationUrlProvider | frontend/src/components/HospitalFinder.tsx:189-195 | `NavigationUrl`: the link is the Waze one iff the provider is waze, otherwise the Google directions one |
| HospitalFinder.NavigationUrlCoords | frontend/src/components/HospitalFinder.tsx:189-195 | both links of `NavigationUrl` contain "lat,lon" |
| HospitalFinder.NearestFirstCorrect | frontend/src/components/HospitalFinder.tsx:139-142 | `NearestFirst`: located entries come out sorted by distance, as a permutation, each with its computed distance |
| HospitalFinder.OfflineFallbackCorrect | frontend/src/components/HospitalFinder.tsx:139-144 | `OfflineFallback` lists the four built-in hospitals once each, located, OFFLINE, nearest first |
| HospitalFinder.GpsErrorText | frontend/src/components/HospitalFinder.tsx:150-153 | unknown error codes give "GPS Error"; the text is never empty |
| HospitalFinder.FailureReason | frontend/src/components/HospitalFinder.tsx:119-136 | no reason exactly when the backend answered success with data; a failure's own message otherwise |
| HospitalFinder.Finder.Shown | frontend/src/components/HospitalFinder.tsx:179-180 | at most 20 entries, and never empty while there is something to show |
| HospitalFinder.Finder.constructor | frontend/src/components/HospitalFinder.tsx:59-63 | no hospitals, status "Waiting for location...", google links, page 1 |
| HospitalFinder.Finder.SetHospitals | frontend/src/components/HospitalFinder.tsx:172-174 | replacing the list resets the page to 1 |
| HospitalFinder.Finder.HandlePageChange | frontend/src/components/HospitalFinder.tsx:182-187 | the page changes only to 1..totalPages; otherwise it stays; the page stays valid |
| HospitalFinder.Finder.NoGeolocation | frontend/src/components/HospitalFinder.tsx:105-110 | the built-in list, the "GPS not supported" status, loading off |
| HospitalFinder.Finder.OnPositionError | frontend/src/components/HospitalFinder.tsx:148-158 | the built-in list and the code's text with ". Showing offline data.", loading off |
| HospitalFinder.Finder.OnPosition | frontend/src/components/HospitalFinder.tsx:113-147 | backend data and online status on success; otherwise offline, "API Error: …" and the located fallback; loading off |
| HospitalFinder.Finder.SearchLocation | frontend/src/components/HospitalFinder.tsx:65-99 | a blank query changes nothing; otherwise each outcome (search failed, location not found, found with or without hospitals) sets its status and list, and loading ends off |
| AiDoctor.FirstMatch | frontend/src/components/AiDoctor.tsx:56 | the first table entry some keyword of which occurs in the lowercased symptom; none exactly when no entry matches |
| AiDoctor.Fallback | frontend/src/components/AiDoctor.tsx:58-64 | "[severity] advice" of the first match, else the fixed no-internet text; source always "OFFLINE (Local Data)" |
| AiDoctor.Consult | frontend/src/components/AiDoctor.tsx:25-66 | online with a server answer gives that advice and "ONLINE (Gemini)"; every other case is the offline fallback |
| AiDoctor.ServerFailureIsOffline | frontend/src/components/AiDoctor.tsx:42-56 | a failed server attempt ends exactly as being offline |
| AiDoctor.OnlineIgnoresTable | frontend/src/components/AiDoctor.tsx:30-48 | when the server answers, the table does not matter |
| AiDoctor.SourceTellsPath | frontend/src/components/AiDoctor.tsx:46-63 | the source is the online one iff the server answered |
| AiDoctor.UpperCaseKeywordNeverMatches | frontend/src/components/AiDoctor.tsx:56 | a keyword containing an upper-case letter never matches any symptom |
| AiDoctor.Page.constructor | frontend/src/components/AiDoctor.tsx:7-11 | empty symptom, advice and source; not loading |
| AiDoctor.Page.GetHelp | frontend/src/components/AiDoctor.tsx:25-66 | advice and source end as `Consult` says; loading ends off |
| SymptomTracker.ReplyText | frontend/src/components/SymptomTracker.tsx:52-65 | the server's reply, or the fixed apology on failure |
| SymptomTracker.Exchange | frontend/src/components/SymptomTracker.tsx:27-65 | nothing exactly for blank input; otherwise the posted conversation is the old one plus the raw input, and the shown one adds the reply, two messages more |
| SymptomTracker.ExchangeKeepsConversation | frontend/src/components/SymptomTracker.tsx:30-65 | a send keeps the conversation greeting-first and alternating, with no blank user message, and earlier messages unchanged |
| SymptomTracker.Chat.constructor | frontend/src/components/SymptomTracker.tsx:11-19 | the conversation is the greeting alone; empty input; not loading |
| SymptomTracker.Chat.SendMessage | frontend/src/components/SymptomTracker.tsx:27-69 | blank input sends nothing and changes nothing; otherwise posts old + user input, shows that plus the reply or apology, clears the input, loading off |
| DoctorList.FilterDoctorsExact | frontend/src/components/DoctorList.tsx:95-98 | `FilterDoctors`: a doctor is kept iff the lowercased term occurs in the lowercased name or specialty; order kept; an empty term keeps all |
| DoctorList.MakePayload | frontend/src/components/DoctorList.tsx:54-62 | patientName is the e-mail up to its first '@' (missing without an e-mail); doctor and patient ids from the selection and the user; date, time and reason as entered |
| DoctorList.BookingIsStoredPending | frontend/src/components/DoctorList.tsx:54-72 | a payload with doctor, patient, date and time, for a user with an e-mail, is stored by the backend as a pending appointment of that doctor and patient on that date and time, with the doctor's name and the patient name from the e-mail |
| DoctorList.Outcome | frontend/src/components/DoctorList.tsx:74-92 | success iff the answer is ok; otherwise the server's error or "Failed to book appointment", or the failure's message or "Network error" |
| DoctorList.ErrorAlwaysExplained | frontend/src/components/DoctorList.tsx:83-92 | a failed booking always has a message, a successful one none |
| DoctorList.Booking.constructor | frontend/src/components/DoctorList.tsx:22-27 | nothing selected, idle, empty fields |
| DoctorList.Booking.HandleBookAppointment | frontend/src/components/DoctorList.tsx:47-93 | no doctor or no user: nothing sent, nothing changed; otherwise the payload is sent and status and message end as `Outcome` says |
| DiseaseWiki.InitialLang | frontend/src/components/DiseaseWiki.tsx:31-33 | the stored language, or "bn" when none or empty is stored |
| DiseaseWiki.Toggle | frontend/src/components/DiseaseWiki.tsx:103 | always en or bn, and different from en/bn it started from |
| DiseaseWiki.ToggleTwice | frontend/src/components/DiseaseWiki.tsx:103 | two toggles restore en or bn |
| DiseaseWiki.Title | frontend/src/components/DiseaseWiki.tsx:51 | the English title in English mode, the Bangla one otherwise |
| DiseaseWiki.FilterDiseasesExact | frontend/src/components/DiseaseWiki.tsx:74-77 | `FilterDiseases`: an entry is kept iff its name in the current language, lowercased, contains the lowercased term; order kept; an empty term keeps all |
| DiseaseWiki.FindsMalaria | frontend/src/components/DiseaseWiki.tsx:6-19 | searching "MAL" in English finds Malaria in the built-in list |
| DiseaseWiki.Wiki.constructor | frontend/src/components/DiseaseWiki.tsx:31-43 | the initial language, written back to storage |
| DiseaseWiki.Wiki.ToggleLanguage | frontend/src/components/DiseaseWiki.tsx:41-43 | the language toggles and is written back under wikiLanguage |
| DiseaseWiki.Wiki.Fetch | frontend/src/components/DiseaseWiki.tsx:46-71 | nothing without a selection; otherwise the title for the language is requested, a non-ok answer or failure leaves no data, loading off |
| Text.TrimEmptyIffBlank | frontend/src/components/SymptomTracker.tsx:28 | `trim()` is empty exactly when every character is white space |
| Text.BeforeFirst | frontend/src/components/DoctorList.tsx:58 | `split(sep)[0]` is the longest prefix without the separator |
| Text.OrElse | backend/src/controllers/authController.js:27 | `x \|\| d` is x when present and non-empty, else d |
| Seqs.FilterMembers | frontend/src/components/HospitalFinder.tsx:177 | a filter keeps exactly the elements that pass |
| Seqs.FilterIsSubsequence | frontend/src/components/DoctorList.tsx:95 | a filter keeps the order of what it keeps |

## Left out

- Distances (`getDistance`, Haversine in floating point) are an input function; only their order is used.
- Date parsing in the patient sort: dates and times are compared as text. For `YYYY-MM-DD` and `HH:MM` this is the order of the instants. Invalid dates, which make the comparator return NaN, are not modelled.
- Appointments.GetPatientAppointments: states sorted and a permutation, not the exact order among appointments with the same date and time.
- Diseases.GetDiseases: records with the same date keep their order in the collection (the sort is stable), while Firestore orders them by document id, descending. Dates are compared by code point, as Firestore compares strings.
- Firestore, Firebase Auth, Overpass, Nominatim, Wikipedia and the consultation and symptom servers are inputs (success with a value, or failure with a message). So are the clock and the store's id generator. Firestore's refusal of undefined fields counts as a failed write, and that outcome is an input too.
- Appointments.CreateAppointment: does not force the write to fail when `doctorName` or `patientName` is missing. The store refuses such a document, but the write's outcome is an input. `DoctorList.BookingIsStoredPending` is therefore stated only for a user with an e-mail, whose payload has both names.
- Network, concurrency and React scheduling are not modelled. Each handler runs to completion; effects run when their methods are called.
- JSON text: a stored user is written with a self-delimiting encoding that has the same round-trip property as `JSON.stringify`/`JSON.parse`. `Parse` accepts only text that `Serialize` could have written. So `AuthContext.Restore` differs from the source for stored text that is valid JSON but not a user, such as `{}`, `42` or `[1]`: the source restores that value as the current user and leaves storage alone, while the model restores no one and clears both keys. Parsing the text `null` is not modelled either.
- AuthContext.AuthProvider.Initialise: requires that no one is signed in yet, since the effect runs once right after mounting.
- `toLowerCase` changes only ASCII letters. `trim` uses the ECMAScript white-space set.
- HospitalFinder.NavigationUrl: takes the coordinates as the text JavaScript prints, because number formatting is not modelled. The GPS status line's `toFixed(4)` text is an input for the same reason.
- The offline advice table (`frontend/src/data/offlineData`) is not part of this model; it is a parameter.
- The image attached to a consultation and its compression, the map-service query text, and the debug logs are not modelled.
- The booking dialog's two-second reset after success is not modelled. Neither is `fetchDoctors` on the doctor list, or the route table of `App.tsx`, which is wiring.
- An element without `tags` makes `getNearbyHospitals` throw inside its `try`, so the reply becomes 500 "Failed to fetch external data". The model gives every element a tag map and does not represent this case.
- The register page (`frontend/src/components/Register.tsx`) writes to Firebase itself and is not modelled as an operation. It leaves in the store a profile without role, specialty or experience (`Accounts.Profile` allows this; see `Routing.RoleLessProfilePassesGuards`). The login page is modelled only by the user it keeps (`AuthContext.SessionUser`).
- The AI doctor keeps no queue of pending messages and never retries: it makes one online attempt, then uses the keyword table.
- Only the symptom is lowercased, not the keywords (see `AiDoctor.UpperCaseKeywordNeverMatches`).
- Order of documents in the store: a new appointment, disease record or profile is added at the end of its collection, and listings return documents in that order. Firestore gives `add` a random id and returns query results by document id, so a new document can appear anywhere in a real listing. Appointments.CreateAppointment, Diseases.AddDisease and Accounts.Put therefore fix one order among those Firestore may give.

# Logbook: a verified model of the client session, the API client, the forms and the backend helpers

Logbook is a personal relationship journal. A React client keeps a list of relations (friends,
family, colleagues) and, for each, a history of interactions: typed notes or uploaded documents
with an optional AI summary. A Python backend stores them, summarizes text, PDFs and images with
a language model, answers questions over the history (hybrid search), extracts calendar events
from interaction notes and creates them in Google Calendar.

This project models the parts of Logbook that carry decisions, in Dafny, and proves what they
promise.

- **The client session** (`auth_context.dfy`, `api.dfy`, `private_route.dfy`, `firebase_auth.dfy`):
  - `AuthContext.Provider` is a class holding three cells: the access token, the user record and
    the Google Calendar credentials. It also holds the `localStorage` map the cells are mirrored
    into. Each operation is a method: mount, login, signup, logout, the Google sign-in message
    and the OAuth callback.
  - Every method re-establishes `Valid()`, the invariant that storage mirrors memory. Each is
    proved equal to a pure transition on `Session` values.
  - The request interceptor stamps the stored token on every request as a bearer header. The
    route guard lets only a signed-in user through.
  - On the server, the bearer check reads the token back out of the header. Client and server are
    proved to agree on the token.
- **The API client** (`api.dfy`): the method, path and body of every call. A backend route table
  reads each path back to the operation and id it names. `createInteraction` builds its
  multipart form in a loop, proved equal to the form's specification.
- **The relation views** (`relation_list.dfy`, `relation_card.dfy`, `relation_form.dfy`):
  - the relationship-type filter, proved to partition the list;
  - the badge colours and detail placeholders of a card;
  - the relation form as a class with its fields, its edit prefill and its submit.
- **The interaction panel** (`interaction_view.dfy`): the history load, the draft and its
  summaries, and save and cancel, as a class whose methods state their whole new state. The
  button conditions are predicates on that state (Save disabled, Summarize Text and Summarize
  File shown).
- **The backend helpers**:
  - `file_summarizer_factory.dfy`: the summarizer chosen by a file name.
  - `gemini.dfy`: the summarizer's guards and branches, the PDF page loop and the daily digest
    text.
  - `google_calendar.dfy`: the credential check before an event is created, the credentials
    record and the authorisation request.
  - `search.dfy`: the stable descending sort of search rows and the response built from them.
  - `event_extractor.dfy`: cleaning of the model's answer, the bracket-wrapping retry,
    normalisation to a list and the loop that skips invalid events.

Shared modules:
- `Wrappers`: `Option` and `Result`.
- `Strings`: `str.lower` on ASCII letters, and `str.strip`, `str.replace`, `split(" ")` and `join`,
  with their Python and JavaScript semantics.
- `Json`: JSON values with JavaScript and Python truthiness, JavaScript's `String(v)`, and a
  `JSON.stringify`/`JSON.parse` codec, `\u` escapes included, whose round trip is proved.
- `Web`: `localStorage`, `||`, `String(undefined)` and the ways a call rejects.
- `Http`: FastAPI's `HTTPException` and its `str`.

Inputs are parameters wherever the source calls code whose behaviour is not visible here:
- the language model, the OCR engine and the PDF reader;
- `json.loads`, the pydantic event validator and Firebase's token verifier;
- the database call;
- the outcome of each HTTP request, and the clock (`new Date().toISOString()`, `Date.now()`).

## Model

| member | source | states |
|---|---|---|
| Api.BearerToken | frontend/src/services/api.js:10-11 | The token sent is the stored `access_token` when it is non-empty, else the legacy `token` item when that is non-empty; there is a token exactly when one of the two is non-empty. |
| Api.Intercepted | frontend/src/services/api.js:11-13 | The header map gains `Authorization: Bearer <token>` exactly when a token is stored; every other header is kept as it was. |
| Api.Intercept | frontend/src/services/api.js:9-16 | The interceptor replaces the configuration's headers by `Intercepted` in place, leaves method, URL and body alone, and returns the same configuration object. |
| Api.LoginStoresUndefined | frontend/src/services/api.js:23 | As written, a login response without either token field stores the text "undefined", and every later request then carries `Bearer undefined`. |
| Api.LoginThenIntercept | frontend/src/services/api.js:19-29 | With the intended write, later requests carry the issued token, preferring `access_token` to `token`; a response without a token leaves the header the interceptor sends unchanged. |
| Api.RelationPathRoute | frontend/src/services/api.js:55-77 | `/relations/${id}` routes back to updating (PUT) or deleting (DELETE) that very id when the id is one path segment. |
| Api.InteractionsPathRoute | frontend/src/services/api.js:80-103 | `/relations/${id}/interactions` routes back to listing (GET) or adding (POST) that relation's interactions. |
| Api.InteractionPathRoute | frontend/src/services/api.js:112-134 | `/interactions/${id}` routes back to patching (PATCH) or deleting (DELETE) that interaction. |
| Api.FetchRelations | frontend/src/services/api.js:32-41 | The request routes to listing the relations. |
| Api.CreateRelation | frontend/src/services/api.js:43-53 | The request routes to adding a relation and carries the relation as its JSON body. |
| Api.UpdateRelation | frontend/src/services/api.js:55-65 | The request routes to replacing the relation with that id and carries the relation as its JSON body. |
| Api.DeleteRelation | frontend/src/services/api.js:67-77 | The request routes to deleting the relation with that id. |
| Api.FetchInteractions | frontend/src/services/api.js:80-90 | The request routes to listing the interactions of that relation. |
| Api.FileEntries | frontend/src/services/api.js:97 | One `images` entry per file, in the order of the files. |
| Api.FormEntries | frontend/src/services/api.js:95-97 | The form has the `text` entry first, holding `String(text)`, then one `images` entry per file; missing files count as none. |
| Api.InteractionRequest | frontend/src/services/api.js:92-103 | The call rejects exactly when the payload is undefined. Otherwise it POSTs the form as `multipart/form-data`, whatever the number of files, to the relation's interactions. |
| Api.CreateInteraction | frontend/src/services/api.js:92-103 | Appending the entries one at a time builds exactly the request `InteractionRequest` specifies. |
| Api.UpdateInteraction | frontend/src/services/api.js:112-122 | An undefined or null payload rejects. Otherwise the PATCH to the interaction's path has body `{content: text}`, with `content` left out when `text` is undefined. |
| Api.DeleteInteraction | frontend/src/services/api.js:124-134 | The request routes to deleting that interaction. |
| Api.FetchSearchResults | frontend/src/services/api.js:136-148 | The request routes to the search endpoint and carries `SearchBody`. |
| Api.SearchBody | frontend/src/services/api.js:138-141 | The body holds exactly the query (left out when undefined) and `match_count: 5`. |
| AuthContext.SyncToken | frontend/src/contexts/AuthContext.jsx:17-23 | `access_token` is stored as `String(token)` when the token is truthy and removed otherwise; no other key changes. |
| AuthContext.SyncCredentials | frontend/src/contexts/AuthContext.jsx:25-31 | `googleCredentials` holds the credentials' JSON text when they are truthy and is removed otherwise; no other key changes. |
| AuthContext.ParseItem | frontend/src/contexts/AuthContext.jsx:8-15 | A stored JSON item initialises its cell with the parsed value, or null when it is absent or empty; initialisation fails exactly when the item is malformed. |
| AuthContext.Mount | frontend/src/contexts/AuthContext.jsx:7-31 | Mounting fails exactly when a stored JSON item is malformed. Otherwise the token is the stored item or null, the credentials and the user data are the parsed stored items (null when absent or empty), storage mirrors the cells, and keys other than the token and the credentials are untouched. |
| AuthContext.UserRecord | frontend/src/contexts/AuthContext.jsx:99-106 | The user record is an object whose `userId` and `userName` are exactly the given values, left out when undefined. |
| AuthContext.AdmitMirrored | frontend/src/contexts/AuthContext.jsx:97-106 | Signing in with a truthy token keeps storage a mirror of memory; the stored user record is its JSON text and parses back. |
| AuthContext.LoginSpec | frontend/src/contexts/AuthContext.jsx:94-112 | Login keeps storage mirrored. A rejected post, or a non-null response without a truthy `access_token`, leaves the session untouched and passes the error or body on unchanged. A null response body leaves the session untouched and rejects with a TypeError on `access_token`. Otherwise the token is set, `userData` is `{userId: user_id, userName: user_name}` and the credentials are kept. |
| AuthContext.SignupSpec | frontend/src/contexts/AuthContext.jsx:114-132 | Signup keeps storage mirrored. A rejected post, or a non-null response without a truthy `access_token`, leaves the session untouched and passes the error or body on. A null response body leaves the session untouched and rejects with a TypeError on `access_token`. With a token and no request body, the token is set, the rest kept, and the call rejects. Otherwise the token is set, the stored user name is the request's `name` (not a field of the response), the credentials are kept and the response is passed on. |
| AuthContext.LogoutSpec | frontend/src/contexts/AuthContext.jsx:168-174 | Logout nulls the three cells and removes their three keys, leaves every other key as it was, and a second logout changes nothing. |
| AuthContext.MessageSpec | frontend/src/contexts/AuthContext.jsx:46-62 | Only a `GOOGLE_AUTH` message with truthy credentials changes the session: it takes over those credentials and keeps storage mirrored, while the token, the user data and every storage key but the credentials' stay as they were. The listener is removed exactly on `GOOGLE_AUTH` messages. |
| AuthContext.CallbackSpec | frontend/src/contexts/AuthContext.jsx:134-152 | The callback keeps storage mirrored. A rejected post changes nothing, and a null response body rejects with a TypeError on `credentials`. Otherwise truthy response credentials are taken over (the session is unchanged without them), the token, the user data and every other storage key are kept, and the call resolves to true exactly when the response message is "Google Calendar connected successfully". |
| AuthContext.ReloadRestores | frontend/src/contexts/AuthContext.jsx:7-31 | Mounting from the storage of a mirrored session gives that session back. |
| AuthContext.Provider.constructor | frontend/src/contexts/AuthContext.jsx:7-31 | The provider starts in the state `Mount` specifies, with storage mirrored. |
| AuthContext.Provider.SyncAccessToken | frontend/src/contexts/AuthContext.jsx:17-23 | The token effect changes only storage, as `SyncToken`. |
| AuthContext.Provider.SyncGoogleCredentials | frontend/src/contexts/AuthContext.jsx:25-31 | The credentials effect changes only storage, as `SyncCredentials`. |
| AuthContext.Provider.Login | frontend/src/contexts/AuthContext.jsx:94-112 | Keeps the mirror invariant and moves the provider exactly as the login transition does. |
| AuthContext.Provider.Signup | frontend/src/contexts/AuthContext.jsx:114-132 | Keeps the mirror invariant and moves the provider exactly as the signup transition does. |
| AuthContext.Provider.Logout | frontend/src/contexts/AuthContext.jsx:168-174 | Establishes the mirror invariant and moves the provider exactly as the logout transition does. |
| AuthContext.Provider.ReceiveMessage | frontend/src/contexts/AuthContext.jsx:46-62 | Keeps the mirror invariant, applies the message transition, and reports whether the listener stays registered. |
| AuthContext.Provider.HandleGoogleCallback | frontend/src/contexts/AuthContext.jsx:134-152 | Keeps the mirror invariant and moves the provider exactly as the callback transition does. |
| Json.RoundTrip | frontend/src/contexts/AuthContext.jsx:8-11 | `JSON.parse(JSON.stringify(v))` gives `v` back, so the credentials written at line 27 are read back on the next mount. |
| Json.UnicodeEscapeRoundTrip | frontend/src/contexts/AuthContext.jsx:8-11 | `JSON.parse` reads every character written as a `\uXXXX` escape, or as an escaped UTF-16 surrogate pair beyond the Basic Multilingual Plane, back as that character. |
| Json.RawControlRefused | frontend/src/contexts/AuthContext.jsx:8-11 | `JSON.parse` refuses a string literal holding a raw control character, so such a stored item is malformed. |
| Json.LeadingZeroRefused | frontend/src/contexts/AuthContext.jsx:8-11 | `JSON.parse` refuses a number written with a leading zero, such as "01" or "-01". |
| AuthContext.MountRefusesLeadingZero | frontend/src/contexts/AuthContext.jsx:8-11 | Mounting fails when the stored credentials are a number with a leading zero, as `JSON.parse` throws on them. |
| PrivateRoute.Guard | frontend/src/components/Auth/PrivateRoute.jsx:5-13 | The children render, unchanged, exactly when the token is truthy. Otherwise the guard redirects to `/login` with `replace`. |
| PrivateRoute.EmptyTokenRedirects | frontend/src/components/Auth/PrivateRoute.jsx:8 | An empty token redirects like a missing one. |
| PrivateRoute.GuardFollowsSession | frontend/src/components/Auth/PrivateRoute.jsx:6-12 | After logout every protected page redirects. After a login whose response carries a truthy token, protected pages render. |
| FirebaseAuth.ExtractToken | backend/routes/firebase_auth.py:14 | The token is the second field of the header split at single spaces. A header without a space raises the index error, and the token never contains a space. |
| FirebaseAuth.Authorize | backend/routes/firebase_auth.py:8-18 | A missing or empty header gets 401 "Authorization token is missing". A header without a space gets 401 with the index error. A failed verification gets 401 with its text. The view proceeds exactly when the extracted token verifies, and then with the verifier's claims. |
| FirebaseAuth.BearerRoundTrip | backend/routes/firebase_auth.py:14 | `Bearer <t>` for a token without spaces reads back as `t`, also when more fields follow. |
| FirebaseAuth.InterceptedRequestAuthorizes | backend/routes/firebase_auth.py:8-20 | A request stamped by the client interceptor passes the server check exactly when the verifier accepts the stored token. |
| FirebaseAuth.Decorated | backend/routes/firebase_auth.py:7-20 | The decorator's outcome is `Authorize` on the request's header. On success the claims are attached as `request.user`; a rejected request is left as it came. |
| RelationCard.TypeColor | frontend/src/components/Relations/RelationCard.jsx:4-17 | The colour is grey exactly for a type the switch does not name, and it is one of the five listed colours. |
| RelationCard.TypeColorIdentifies | frontend/src/components/Relations/RelationCard.jsx:6-15 | Two types with the same non-grey colour are the same type, so the four named colours are pairwise distinct. |
| RelationCard.Detail | frontend/src/components/Relations/RelationCard.jsx:106-108 | A missing or empty detail shows its placeholder; any other shows itself. |
| RelationCard.Details | frontend/src/components/Relations/RelationCard.jsx:106-108 | Each of city, e-mail and phone is shown as stored when it is present and non-empty; otherwise its line is "No location", "No email" or "No phone". |
| RelationCard.LastContacted | frontend/src/components/Relations/RelationCard.jsx:114 | A missing or empty date shows "Never"; any other shows its formatted form. |
| RelationList.Keep | frontend/src/components/Relations/RelationList.jsx:141-145 | The kept relations are an order-preserving subsequence of the list, and a relation is kept exactly when the filter matches it. |
| RelationList.Filter | frontend/src/components/Relations/RelationList.jsx:138-150 | An unset filter shows every relation. A set filter shows exactly the matching relations, in list order. |
| RelationList.ExactlyOneFilter | frontend/src/components/Relations/RelationList.jsx:142-144 | Every relation matches exactly one of the Work, Family, Friends and Others filters. |
| RelationList.FiltersPartition | frontend/src/components/Relations/RelationList.jsx:142-144 | The sizes of the four filtered lists add up to the size of the list. |
| RelationList.SampleFilters | frontend/src/components/Relations/RelationList.jsx:9-37 | On the example relations, the "Colleague" relation appears only under Others and nobody appears under Work. |
| RelationList.RelationList.constructor | frontend/src/components/Relations/RelationList.jsx:9-44 | The list starts with the example relations filtered, the form and the interaction view closed, and nothing being edited. |
| RelationList.RelationList.ApplyFilter | frontend/src/components/Relations/RelationList.jsx:138-150 | The filter effect sets the shown relations to `Filter` and changes nothing else. |
| RelationList.RelationList.HandleCreate | frontend/src/components/Relations/RelationList.jsx:117-120 | Opens the form with no relation to edit and changes nothing else. |
| RelationList.RelationList.CloseForm | frontend/src/components/Relations/RelationList.jsx:122-125 | Closes the form and changes nothing else. |
| RelationList.RelationList.HandleEdit | frontend/src/components/Relations/RelationList.jsx:172 | Records the relation to edit and changes nothing else; in particular the form is not opened. |
| RelationList.RelationList.HandleRelationClick | frontend/src/components/Relations/RelationList.jsx:127-130 | Selects the relation and shows its interaction view, keeping the view open exactly while a relation is selected. |
| RelationList.RelationList.CloseInteractionView | frontend/src/components/Relations/RelationList.jsx:132-135 | Hides the view and clears the selection, keeping the same invariant. |
| RelationForm.With | frontend/src/components/Relations/RelationForm.jsx:29-32 | The named input takes the new value and the other four keep theirs. |
| RelationForm.Prefill | frontend/src/components/Relations/RelationForm.jsx:17-27 | Each input takes the relation's field of the same key when it is truthy, and the empty string otherwise. |
| RelationForm.ToJson | frontend/src/components/Relations/RelationForm.jsx:6-12 | The submitted body holds each of the five inputs under its key. |
| RelationForm.OfferedTypesColoured | frontend/src/components/Relations/RelationForm.jsx:53 | Each offered relationship type has its own non-grey badge colour. |
| RelationForm.RelationForm.constructor | frontend/src/components/Relations/RelationForm.jsx:4-27 | A new form starts blank; an edit form starts prefilled. Neither is submitting or shows an error. |
| RelationForm.RelationForm.HandleChange | frontend/src/components/Relations/RelationForm.jsx:29-32 | Only the named input changes. |
| RelationForm.RelationForm.BeginSubmit | frontend/src/components/Relations/RelationForm.jsx:34-44 | Marks the form as submitting and clears the error. It sends an update of the edited relation's `relationship_id` exactly in edit mode, and a creation otherwise, carrying the form data. |
| RelationForm.RelationForm.FinishSubmit | frontend/src/components/Relations/RelationForm.jsx:45-50 | `onSuccess` runs exactly on success. A failure shows its message, or the fallback text when the message is empty. The form stops submitting either way. |
| RelationForm.EditWithoutRelationshipId | frontend/src/components/Relations/RelationForm.jsx:41 | Editing a relation without `relationship_id` sends the update to `/relations/undefined`. |
| InteractionView.FileSummary | frontend/src/components/Interactions/InteractionView.jsx:202 | The placeholder summary is non-empty and names the file. |
| InteractionView.Loaded | frontend/src/components/Interactions/InteractionView.jsx:153-172 | A failed load shows the load error with an empty history. A load succeeds exactly when it uses the relation's own list or the fetch succeeds, and then clears the error. Falsy fetched data (null, undefined, 0, "") becomes `[]`; other data is kept. A null relation gives the load error. |
| InteractionView.NewInteraction | frontend/src/components/Interactions/InteractionView.jsx:212-217 | The record carries the relation's id, the date, the summary or else the text, and type "document" exactly when a file is selected. |
| InteractionView.Spread | frontend/src/components/Interactions/InteractionView.jsx:226 | Spreading an array gives its items and spreading a string gives its characters; any other value cannot be spread. |
| InteractionView.TypeIcon | frontend/src/components/Interactions/InteractionView.jsx:255-262 | "meeting", "call" and "document" get their own icon text, spelled as in the file; every other type, a missing one included, gets the speech-balloon icon text. |
| InteractionView.TypeIconsDistinct | frontend/src/components/Interactions/InteractionView.jsx:255-262 | Two types with the same icon are equal or both fall to the default icon, so the four icons are distinct. |
| InteractionView.InteractionView.constructor | frontend/src/components/Interactions/InteractionView.jsx:4-12 | The panel starts loading with an empty history, no error and an empty draft with the form hidden. |
| InteractionView.InteractionView.LoadInteractions | frontend/src/components/Interactions/InteractionView.jsx:147-172 | The history and error become `Loaded` and loading ends. The fetch is sent exactly when the relation's own list is not used; the draft is untouched. |
| InteractionView.InteractionView.OpenForm | frontend/src/components/Interactions/InteractionView.jsx:278 | Shows the draft form and changes nothing else. |
| InteractionView.InteractionView.ChangeText | frontend/src/components/Interactions/InteractionView.jsx:293 | Replaces the draft text. Summarize Text shows exactly when the new text is non-empty and there is no summary. Nothing else changes. |
| InteractionView.InteractionView.HandleFileChange | frontend/src/components/Interactions/InteractionView.jsx:174-178 | Selects the first chosen file; choosing none changes nothing. Nothing else changes. |
| InteractionView.InteractionView.SummarizeText | frontend/src/components/Interactions/InteractionView.jsx:180-192 | The summary becomes the current text, which hides Summarize Text; nothing else changes. |
| InteractionView.InteractionView.SummarizeFile | frontend/src/components/Interactions/InteractionView.jsx:194-208 | Without a file nothing changes. With one, the summary names the file, which hides Summarize File. |
| InteractionView.InteractionView.Cancel | frontend/src/components/Interactions/InteractionView.jsx:331-336 | Clears the draft and hides the form, so Save is disabled; the history, the error and the loading flag are kept. |
| InteractionView.InteractionView.ResetDraft | frontend/src/components/Interactions/InteractionView.jsx:233-236 | Clears text, file and summary and hides the form; nothing else changes. |
| InteractionView.InteractionView.SaveInteractionAsWritten | frontend/src/components/Interactions/InteractionView.jsx:228 | As written, every production save of a relation ends in the save error, with the history, draft, form and loading flag kept and `onUpdate` not called. Without a relation the save error shows and nothing else changes; in development the mock record is prepended to the spread history, the draft is cleared and `onUpdate` called, or a history that cannot be spread gives the save error with everything else kept. |
| InteractionView.InteractionView.SaveInteraction | frontend/src/components/Interactions/InteractionView.jsx:210-242 | In development the mock record is prepended to the spread history, which keeps its order; a history that cannot be spread gives the save error. In production the relation's interaction is posted with the summary or text and the selected file, and the history is reloaded. A successful save clears the draft and calls `onUpdate` when given; a failed one, or a save without a relation, shows the save error and keeps the history, draft, form and loading flag. |
| FileSummarizerFactory.GetSummarizer | backend/services/FileSummarizerFactory.py:8-14 | A missing or empty name gets the text summarizer. The PDF summarizer is chosen exactly for names ending in ".pdf" in any case. The image summarizer is chosen exactly for other names ending in an image suffix in any case. |
| FileSummarizerFactory.LowerCaseSameSummarizer | backend/services/FileSummarizerFactory.py:9-14 | A name and its lower-case form get the same summarizer. |
| FileSummarizerFactory.DependsOnlyOnEnding | backend/services/FileSummarizerFactory.py:9-14 | The choice depends only on the last five characters of the name. |
| Gemini.SummaryPrompt | backend/services/gemini.py:26-31 | The prompt contains the text to summarize, after the fixed instructions. |
| Gemini.SummarizeText | backend/services/gemini.py:18-44 | Empty or whitespace-only text gives "" without asking the model. A blank answer gives the fixed no-summary text; any other answer is returned unchanged. A model failure is a 500 naming it. A successful result is empty exactly when the input is blank. |
| Gemini.PagesTextAppend | backend/services/gemini.py:66-67 | The text of consecutive page ranges is the concatenation of their texts. |
| Gemini.TextlessPageIgnored | backend/services/gemini.py:67 | A page without text adds nothing. |
| Gemini.ExtractPdfText | backend/services/gemini.py:65-67 | The page loop computes the pages' text in page order. |
| Gemini.ExtractedSummary | backend/services/gemini.py:69-75 | Blank extracted text gives the branch's fixed message. Otherwise the summary of the text is given, or a 500 whose detail is the branch prefix and the inner error's `str`. |
| Gemini.Undecodable | backend/services/gemini.py:98-99 | The message names the file, or "uploaded document" when there is no name. |
| Gemini.SummarizeFile | backend/services/gemini.py:46-104 | Empty content gives "". Otherwise the PDF, image or text branch is the one the factory's `get_summarizer` picks for the same name. |
| Gemini.Entry | backend/services/gemini.py:117-123 | An entry names the relation and carries the interaction's content. |
| Gemini.Entries | backend/services/gemini.py:116-124 | One entry per interaction, in input order. |
| Gemini.DigestInOrder | backend/services/gemini.py:127 | Every entry appears in the joined digest, each starting after the one before. |
| Gemini.SummarizeDailyInteractions | backend/services/gemini.py:107-145 | An empty day gives "No interactions recorded today.". Otherwise the result is the model's answer to the digest prompt, or its error passed on unchanged. |
| GoogleCalendar.Missing | backend/services/google_calendar.py:82 | The missing fields are exactly the listed fields that are absent or falsy. |
| GoogleCalendar.MissingAppend | backend/services/google_calendar.py:82 | The missing fields of two lists in a row are those of the first followed by those of the second, so the list keeps the order of the required fields. |
| GoogleCalendar.CredentialError | backend/services/google_calendar.py:81-86 | The error is raised exactly when a required field is absent or falsy, and its message lists the missing fields. |
| GoogleCalendar.TokenAndScopesNotRequired | backend/services/google_calendar.py:81 | Adding `token` and `scopes` to the credentials never changes the check's outcome. |
| GoogleCalendar.CredentialsDict | backend/services/google_calendar.py:62-69 | The record has exactly the six credential keys, in order. |
| GoogleCalendar.CredentialsDictFields | backend/services/google_calendar.py:62-69 | Each key of the record holds the credential field of the same name. |
| GoogleCalendar.ExchangedCredentialsCheck | backend/services/google_calendar.py:62-86 | A record from the OAuth exchange passes the event check exactly when its refresh token, token URI, client id and client secret are truthy. |
| GoogleCalendar.RedirectUris | backend/services/google_calendar.py:21-24 | The first redirect URI is the configured `GOOGLE_REDIRECT_URI`. |
| GoogleCalendar.AuthUrlRequest | backend/services/google_calendar.py:33-46 | The authorisation request carries the user id as its state and the first redirect URI. It asks for the calendar-events scope, offline access and forced consent. |
| GoogleCalendar.SameRedirectUri | backend/services/google_calendar.py:50-56 | The code is exchanged under the same redirect URI the authorisation URL was issued with. |
| Search.SortDesc | backend/routes/search.py:45 | The sorted rows are in non-increasing score order and are a permutation of the input rows. |
| Search.SortDescStable | backend/routes/search.py:45 | Rows of equal score keep the order the database returned them in. |
| Search.ContextLines | backend/routes/search.py:51 | One context line per row, in row order. |
| Search.HybridSearch | backend/routes/search.py:21-67 | A database failure is a 500 carrying its text. On success the results are `SortDesc` of the rows: sorted by descending score, ties in the database's order, and a permutation of the rows; `count` is their number, and with no rows there is no answer and no model call; otherwise the answer is the model's reply to the context of the sorted rows. |
| Search.ContextInOrder | backend/routes/search.py:51 | Every result's line appears in the context, each starting after the one before. |
| EventExtractor.Clean | backend/services/event_extractor.py:97-98 | The cleaned answer neither starts nor ends with whitespace. |
| EventExtractor.RemovalFenceFree | backend/services/event_extractor.py:98 | Removing every "```" leaves no "```" behind. |
| EventExtractor.CleanFenceFree | backend/services/event_extractor.py:97-98 | The cleaned answer contains no "```". |
| EventExtractor.EventsData | backend/services/event_extractor.py:101-109 | A successful parse is kept. A failed parse of text not starting with "[" is retried once, wrapped in brackets. A failed parse of text starting with "[" leaves `events_data` unbound. |
| EventExtractor.RetryRecoversBareList | backend/services/event_extractor.py:106-109 | An answer listing two objects without the enclosing brackets is read, by the retry, as the list of both. |
| EventExtractor.Normalize | backend/services/event_extractor.py:111-112 | A list is kept and any other value becomes a one-item list. |
| EventExtractor.ValidEvents | backend/services/event_extractor.py:114-123 | The events come only from items that validate, and there are no more of them than items. |
| EventExtractor.ValidEventsAppend | backend/services/event_extractor.py:115-123 | The events of consecutive item ranges are the concatenation of their events, so survivors keep their order. |
| EventExtractor.AllValid | backend/services/event_extractor.py:114-125 | When every item validates, nothing is dropped. |
| EventExtractor.CollectEvents | backend/services/event_extractor.py:114-125 | The loop collects exactly `ValidEvents` of the items. |
| EventExtractor.ExtractEvents | backend/services/event_extractor.py:90-132 | A model failure, a failed retry or the unbound variable ends in a 500 naming the exception. Otherwise the result is the valid events of the normalised list, in order. |
| Strings.Strip | backend/services/gemini.py:22 | `str.strip()` keeps a slice that neither starts nor ends with whitespace, and is empty exactly when the text is all whitespace. |
| Strings.Split | backend/routes/firebase_auth.py:14 | `split(" ")` gives at least one part, exactly one when the text has no space, and no part contains a space. |
| Strings.ToLower | backend/services/FileSummarizerFactory.py:9 | `lower()` on ASCII text: keeps the length and lowers each character on its own, A-Z to a-z. |

## Left out

- The Google sign-in popup (`handleGoogleAuth`): opening the window, the `setInterval` that
  watches it, and adding and removing the listener. Only the listener's decision on one message
  is modelled (`AuthContext.Provider.ReceiveMessage`).
- `initiateGoogleCalendarConnection`: a GET followed by that popup plumbing.
- Asynchrony. Each awaited call is one atomic step whose outcome is a parameter; interleavings
  of requests in flight and re-renders between `await`s are not modelled.
- React effects are modelled as running right after the transition that triggers them.
- The response side of the API wrappers: each returns `data` or rethrows the error unchanged.
  That is the identity on the outcome, which callers here take as a parameter.
- `Api.UpdateRelation`, `Api.DeleteRelation`, `Api.FetchInteractions`, `Api.UpdateInteraction`,
  `Api.DeleteInteraction`: the routing property is stated only for ids that stay one path
  segment. An id containing "/" reaches another route.
- Json: numbers are integers. Floating-point values, and the whitespace `JSON.parse` accepts
  between tokens, are not modelled.
- `Json.Parse`: a `\u` escape of a lone surrogate is refused, where `JSON.parse` and `json.loads`
  give a string holding that lone code unit; strings here are sequences of Unicode scalar values
  and cannot hold one. Whitespace between tokens is refused too (above).
- `Json.Stringify`: only `JSON.stringify` is modelled. Python's `json.dumps`, which also escapes
  every non-ASCII character by default, is not used by the code modelled here.
- `AuthContext.ReloadRestores`: stated only for sessions whose token is text or null and whose
  credentials are truthy or null. A response can carry another token, such as the number 42:
  storage then holds "42", which reloads as the text "42", so such a session is not restored as
  it was.
- `Gemini.SummarizeFile`:
  - the temporary file, its clean-up and text-mode newline translation are not modelled;
  - the PDF pages, the OCR text and the UTF-8 decoding arrive as parameters;
  - only a `UnicodeDecodeError` is modelled on the text branch.
- `Gemini.SummarizeDailyInteractions`: a record whose `relationCategory` attribute exists but is
  `None` prints "None"; the model treats every category as a string or absent. The two prompts'
  indentation is kept as written, and the module's import-time API-key check is left out.
- `EventExtractor.ExtractEvents`: the system prompt's wording (dates, the person's name and e-mail)
  is not modelled. The model is a function of the interaction text and the relation context.
- `Strings.ToLower`: lowers ASCII letters only. Python's `lower()` also lowers non-ASCII letters,
  and turns 'İ' into two characters. The only non-ASCII letter it maps into ASCII is the Kelvin
  sign, to 'k', which no suffix the factory looks for contains; 'İ' lowers to 'i' and a combining
  dot, which ends no suffix either. So `FileSummarizerFactory.GetSummarizer` picks the same
  summarizer as the source for every name.
- `Search.HybridSearch`:
  - the embedding and the RPC are one parameter, the rows or the exception text;
  - rows carry only the score, date and details, and a row without `hybrid_score` (a `KeyError`)
    is not modelled;
  - the language model's failure is its `None` answer.
- `GoogleCalendar.CredentialError`: only the check before the Calendar call. Building the
  `Credentials`, refreshing them and inserting the event are Google library calls.
- `GoogleCalendar.AuthUrlRequest`: the URL the OAuth library builds from the request is not
  modelled.
- `FirebaseAuth.Authorize`: Firebase's `verify_id_token` is a parameter; calling the view with
  its original arguments is the `Proceed` outcome.
- Date formatting (`formatDate`, `toLocaleDateString`) is a parameter. The clock is a parameter.
- The markup and styles of every component, the loading and error alerts, and the interaction
  list rendering.
- Persistence (Supabase), Firebase admin, the Google libraries, the language models, OCR, the
  PDF reader and the embeddings are not part of this model.

Further observations:
- The search body sends no `user_id`, which the backend's `SearchRequest` requires.
- A card's edit button only records the relation to edit and never opens the form
  (`RelationList.RelationList.HandleEdit`). The form can therefore only be opened in create mode
  from the list.
- The example relations carry `id`, not `relationship_id`, so editing one would update
  `/relations/undefined` (`RelationForm.EditWithoutRelationshipId`).
- The interaction type icons are stored as mis-decoded UTF-8 (for instance "ü§ù" for the
  handshake). `InteractionView.TypeIcon` keeps them exactly as written.

## Findings

| source | as written | input that shows it | evidently intended | confidence | as-written member | corrected member |
|---|---|---|---|---|---|---|
| frontend/src/services/api.js:23 | `localStorage.setItem('access_token', data.access_token \|\| data.token)` stores `String(undefined)` when the response has neither field | a login response `{}`: storage then holds "undefined" and every request carries `Authorization: Bearer undefined`. No file of the application calls this `login` (the auth context posts `/auth/login` itself), so the defect is latent until something does | store the issued token only when there is one, and leave storage alone otherwise | high, not executed | Api.LoginStoresUndefined | Api.LoginThenIntercept |
| frontend/src/components/Interactions/InteractionView.jsx:228 | `createInteraction(newInteraction)` passes one argument, but `createInteraction(relationId, { text, files = [] })` destructures the second | any save outside development with a relation selected: destructuring `undefined` rejects, so the save error shows and the draft is kept | `createInteraction(relation.id, { text, files })` with the summary or text and the selected file | high, not executed | InteractionView.InteractionView.SaveInteractionAsWritten | InteractionView.InteractionView.SaveInteraction |

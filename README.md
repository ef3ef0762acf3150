# Consultify core, modelled in Dafny

This project models the server-side core of Consultify, a telemedicine app. A patient talks to an
AI triage assistant. The triage summary is parsed into symptoms, an urgency and a specialization
hint. A doctor is drawn from the identity provider's users, and the consultation is handed over
to that doctor with a summary message and an introduction message. Chat text is translated
between the doctor's and the patient's languages through two translation caches:

- a message-scoped cache keyed by (messageId, targetLanguage);
- a text-keyed cache keyed by (text, sourceLanguage, targetLanguage).

The remaining routes cover:

- listing a user's consultations and their statistics;
- the in-memory demo chat with its typing indicators;
- read receipts.

Outside state is modelled as follows:

- The database is the class `Store.Database`. Each table is a field. Consultation and message
  creates and updates are `Database` methods with a `modifies` frame. The translation-cache rows
  and the read receipts are written by assigning the field inside the route's own method, whose
  `modifies` frame names that field.
- The translation service is the class `Lingo.Provider`. It answers from a script of replies, where
  `None` means the call throws, and it logs every request, so "no provider call" is a statement
  about that log.
- The identity provider is a snapshot `Identity.Directory`: its users plus the ids whose lookup
  fails right now.
- The clock (`Date.now()` and the database's timestamps) is a `now` parameter.
- Database-generated ids are parameters. A create whose id is taken, or a message whose
  consultation does not exist, is refused as the database's constraints refuse it.
- `Math.random()` is a real parameter `random` with `0 <= random < 1`.
- Each handler that only computes is a function. Each handler that writes is a method whose
  `ensures` states its reply and its whole new state through pure functions
  (`Translation.TranslateMessageStep` and `Translation.TranslateSequence` for the message cache,
  `TranslateTextRoute.TranslateTextStep`, `ChatStore.AfterTyping`, `ReadRoute.Upsert`, the row
  builders of each route). The properties the source promises are proved as lemmas about those
  functions.

The AI triage system prompt (lib/ai.ts:18-19) asks the model to end with `TRIAGE_TERMINE :` or
`TRIAGE_URGENCE_TERMINE :`. Neither `isComplete` (app/api/consultations/ai-triage/route.ts:16)
nor `extractSymptoms` (lib/doctor-selection.ts:31-32) recognises those markers: they look for
`TRIAGE_COMPLETE`. `AiTriageRoute.PromptMarkersAreNotRecognised` and
`AiTriageRoute.PromptMarkersAreNotStripped` prove the consequence. A reply that ends in the
format the prompt asks for, after any preamble, is not detected as complete unless the preamble
or the summary happens to contain `TRIAGE_COMPLETE`. A reply that starts with a prompt marker,
passed on as a summary, keeps its marker in the symptom text and gets medium urgency. The model keeps the code's behaviour.

The code behaves as follows in these places, and the model keeps that behaviour:

- complete-triage does not check the consultation's triage state. A consultation that was already
  handed over is assigned again.
- complete-triage's writes are not one transaction. A failing message create after the update is
  a 500 that leaves the earlier writes in place (`CompleteTriage.HandOver`).
- The amount of whitespace after a marker that `extractSymptoms` strips is unbounded.
- The urgency test (`URGENT_TRIAGE_COMPLETE`, no colon) is looser than the stripping pattern
  (`URGENT_TRIAGE_COMPLETE:`), so a summary can be urgent and keep its marker
  (`DoctorSelection.UrgentWithoutColon`).

## Model

| member | source | states |
|---|---|---|
| Text.Or | lib/auth.ts:53-56 | `o \|\| d` on a string field: the value when present and non-empty, else the default |
| Text.TrimStartSpace | lib/doctor-selection.ts:31 | the `\s*` part of the pattern: a suffix whose removed characters are all whitespace, with no whitespace left at its start |
| Text.Lower | lib/doctor-selection.ts:37-39 | `toLowerCase()`: the same length, each character lower-cased |
| Text.Upper | app/api/consultations/complete-triage/route.ts:45 | `toUpperCase()`: the same length, each character upper-cased |
| Text.Prefix | app/api/consultations/complete-triage/route.ts:41 | `substring(0, n)`: a prefix of length min(n, length) |
| Text.Decimal | app/api/translate/route.ts:25 | `toString()` of a timestamp: decimal digits that denote the number, with no leading zero |
| Text.Split | app/api/translate/route.ts:45 | `split(",")`: at least one piece, no piece holds the separator, and the pieces joined with it give the input back |
| Text.MissingCharExcludes | app/api/consultations/ai-triage/route.ts:16 | `includes(p)` is false when some character of `p` does not occur in the text |
| Identity.GetUserById | lib/translation.ts:97-98 | the admin lookup returns a user with that id, and returns none exactly when the lookup fails or no user has that id |
| Auth.GetUserDisplayInfo | lib/auth.ts:50-61 | email and name default to "", role to "patient", language to "en", onboarding to false; id, created_at and specialization pass through |
| Auth.EmptyMetadataDefaults | lib/auth.ts:52-59 | a user without metadata is shown as an English-speaking patient with no name and no email |
| DoctorSelection.StripMarker | lib/doctor-selection.ts:31 | a leading `TRIAGE_COMPLETE:` or `URGENT_TRIAGE_COMPLETE:` and the whitespace after it are removed; text without a marker is unchanged |
| DoctorSelection.ExtractSymptoms | lib/doctor-selection.ts:29-48 | symptoms are the stripped text; urgency is high iff the summary starts with `URGENT_TRIAGE_COMPLETE`, else medium, never low; Cardiology iff the lower-cased symptoms contain heart or chest; Dermatology iff they contain skin or rash and no cardiac word; otherwise no specialization |
| DoctorSelection.StripOneSpace | lib/doctor-selection.ts:31-32 | a summary made of a marker, one space and text yields that text, and is urgent exactly for the urgent marker |
| DoctorSelection.ChestPainExample | lib/doctor-selection.ts:37-38 | "TRIAGE_COMPLETE: patient reports chest pain" is a medium-urgency Cardiology case |
| DoctorSelection.SevereRashExample | lib/doctor-selection.ts:39-40 | "URGENT_TRIAGE_COMPLETE: severe rash" is a high-urgency Dermatology case |
| DoctorSelection.KeywordsIgnoreCase | lib/doctor-selection.ts:37 | an upper-case "CHEST" still selects Cardiology |
| DoctorSelection.UrgentWithoutColon | lib/doctor-selection.ts:31-32 | a summary starting with `URGENT_TRIAGE_COMPLETE` and no colon is urgent, and its text is kept whole |
| DoctorSelection.Doctors | lib/doctor-selection.ts:13 | the filtered list holds exactly the users whose metadata role is "doctor", each as often as listed |
| DoctorSelection.FirstDoctorComesFirst | app/api/consultations/route.ts:79-85 | the head of the filtered list is the first user of the directory with the doctor role, so `doctors[0]` is the first listed doctor |
| DoctorSelection.PickIndex | lib/doctor-selection.ts:19 | `Math.floor(random * n)` is a valid position in a pool of n |
| DoctorSelection.SelectDoctor | lib/doctor-selection.ts:9-27 | fails with "No doctors available" iff no user is a doctor; otherwise returns a listed user with the doctor role |
| DoctorSelection.SelectionIgnoresCriteria | lib/doctor-selection.ts:9-22 | the selected doctor does not depend on the criteria |
| DoctorSelection.EveryDoctorSelectable | lib/doctor-selection.ts:19-20 | every doctor in the pool is selected by some random draw |
| Lingo.Provider.LocalizeText | lib/translation.ts:41-44 | one provider call: answered from the script, and logged |
| Store.FindConsultation | app/api/consultations/complete-triage/route.ts:18-20 | finds a row with that id; none exactly when no row has that id |
| Store.Database.InsertConsultation | app/api/consultations/route.ts:87-94 | appends the row iff its id is free, otherwise changes nothing; keeps the schema invariant |
| Store.Database.InsertMessage | app/api/consultations/start-ai-triage/route.ts:30-38 | appends the message iff its id is free and its consultation exists; keeps the schema invariant |
| Store.Database.UpdateConsultation | app/api/consultations/complete-triage/route.ts:37-47 | replaces one row in place and keeps the set of ids |
| Queries.ForUser | app/api/consultations/route.ts:16 | exactly the rows matching the role filter (as a multiset): patientId for "patient", doctorId otherwise |
| Queries.InsertByUpdated | app/api/consultations/route.ts:24-26 | inserting into an updatedAt-descending list keeps it sorted and adds exactly one row |
| Queries.SortByUpdatedDesc | app/api/consultations/route.ts:24-26 | sorted by updatedAt descending, and a permutation of the input |
| Queries.Listing | app/api/consultations/route.ts:15-27 | the user's rows, newest update first, with multiplicities |
| Queries.ListingMembers | app/api/consultations/route.ts:15-27 | a row is listed iff it is stored and matches the role filter |
| Queries.PrefixIsMostRecent | app/api/user/stats/route.ts:25-29 | the first n rows of the listing were updated no earlier than any later row |
| Translation.TranslateMessageStep | lib/translation.ts:17-63 | the result is the input text, the cached translation, or the provider's answer |
| Translation.StepKeepsRows | lib/translation.ts:26-57 | no cached row is overwritten or removed; at most the call's own key is added; rows stay under their own key |
| Translation.SameLanguageShortCircuits | lib/translation.ts:21-23 | equal languages return the text with no provider call and no write |
| Translation.HitNeedsNoProvider | lib/translation.ts:26-37 | a hit returns the stored translation, whatever text is passed, with no provider call |
| Translation.MissWritesOneEntry | lib/translation.ts:39-57 | a miss with an answer writes exactly one row (original, translation, source) under (messageId, targetLanguage) and returns the answer |
| Translation.FailureFallsBack | lib/translation.ts:39-62 | a failing provider call writes nothing and returns the original text (or an existing hit) |
| Translation.SecondCallIsHit | lib/translation.ts:26-57 | after an answered call, a second call with the same key is a hit: same text, no call |
| Translation.RetryAfterFailure | lib/translation.ts:39-62 | after a failed call the key is still a miss, so the next call asks again |
| Translation.TranslateSequence | lib/translation.ts:65-91 | one result per call, and one logged request per provider reply |
| Translation.CachedRunNeedsNoProvider | lib/translation.ts:21-37 | calls whose keys are all cached beforehand make no provider call and write nothing; each returns its text (equal languages) or the stored translation |
| Translation.AtMostOneSuccessfulCall | lib/translation.ts:26-57 | any number of sequential calls for one key gets at most one successful answer; after that the key is cached; a key cached beforehand causes no call |
| Translation.SourceLanguageOf | lib/translation.ts:76 | the sender's language from the map, or "en" when it is absent or empty |
| Translation.BatchOptions | lib/translation.ts:75-82 | one call per message, in order, with its id, its content and its sender's language |
| Translation.LanguageOf | lib/translation.ts:93-103 | the user's metadata language, or "en" when it is missing or the lookup fails |
| Translation.TranslateMessage | lib/translation.ts:17-63 | the returned text, the new cache and the provider log are those of the step function |
| Translation.TranslateAll | lib/translation.ts:74-88 | the texts returned, the cache and the provider log after the calls are those of the sequential run |
| Translation.TranslateMultipleMessages | lib/translation.ts:65-91 | one result per message with the same ids in input order; the cache and log are those of the sequential run |
| TranslateTextRoute.TranslateTextStep | app/api/translate-text/route.ts:11-66 | 400 iff a field is missing; rows are never changed and only the request's key is added; an Ok body is the cached value or the provider's answer |
| TranslateTextRoute.InvalidRequestTouchesNothing | app/api/translate-text/route.ts:16-21 | a missing field is a 400 with no cache change and no provider call |
| TranslateTextRoute.HitServedFromCache | app/api/translate-text/route.ts:24-37 | a hit returns the cached translation with no provider call |
| TranslateTextRoute.MissStoresThenHits | app/api/translate-text/route.ts:41-58 | a miss stores the answer under the same triple, and a repeat request is then served from the cache |
| TranslateTextRoute.FailureIsServerError | app/api/translate-text/route.ts:41-65 | a provider failure is a 500 and no row is written |
| TranslateTextRoute.NoSameLanguageShortCut | app/api/translate-text/route.ts:23-44 | equal source and target languages still go through the cache and the provider |
| TranslateTextRoute.Post | app/api/translate-text/route.ts:11-66 | the reply, the cache and the provider log are those of the step function |
| TranslateRoute.ResolveTarget | app/api/translate/route.ts:13-22 | an explicit target wins; otherwise the user's language when userId is given; otherwise none |
| TranslateRoute.PostOptions | app/api/translate/route.ts:24-29 | messageId defaults to "temp-" followed by the clock, and source defaults to "en" |
| TranslateRoute.Post | app/api/translate/route.ts:5-40 | 400 for missing text or an unresolved target with nothing touched; otherwise the reply echoes the resolved languages, and the cache, the provider script and the provider log are the step function's |
| TranslateRoute.RequestedIds | app/api/translate/route.ts:45 | no ids exactly when the parameter is absent |
| TranslateRoute.EmptyIdsParameterPasses | app/api/translate/route.ts:45-51 | an empty `messageIds` value splits to one empty id and passes the 400 check |
| TranslateRoute.FoundMessages | app/api/translate/route.ts:67-78 | exactly the stored messages whose id was requested, in store order, each as often as it is stored |
| TranslateRoute.SenderLanguages | app/api/translate/route.ts:81-89 | one entry per distinct sender, holding that sender's language |
| TranslateRoute.Refs | app/api/translate/route.ts:93-100 | each found message as (id, content, senderId), in order |
| TranslateRoute.SourceIsSenderLanguage | app/api/translate/route.ts:94 | each message's source language is its sender's language |
| TranslateRoute.Entries | app/api/translate/route.ts:102-108 | one reply row per found message, with its original text, translation, sender language and target |
| TranslateRoute.Get | app/api/translate/route.ts:43-120 | 400s for absent ids or an unresolved target, with nothing written; otherwise one entry per found message, from its sender's language, whose translated text, together with the cache, the provider script and the log afterwards, is that of the sequential run of `translateMessage` calls |
| TranslateRoute.CachedBatchNeedsNoProvider | app/api/translate/route.ts:92-110 | a batch whose messages are all cached for the target makes no provider call and writes nothing; each entry is the stored translation, or the content when the sender's language is the target |
| ConsultationsRoute.LatestMessage | app/api/consultations/route.ts:18-21 | a newest message of the consultation; none iff it has no messages |
| ConsultationsRoute.PatientName | app/api/consultations/route.ts:32-42 | "Unknown Patient" unless a non-empty patientId resolves to a user with a name |
| ConsultationsRoute.DoctorNames | app/api/consultations/route.ts:33-51 | "Unknown Doctor" and "" unless doctorId is set and resolves; no lookup without doctorId |
| ConsultationsRoute.UnassignedNeedsNoLookup | app/api/consultations/route.ts:45-51 | an unassigned consultation's doctor fields do not depend on the identity provider |
| ConsultationsRoute.Get | app/api/consultations/route.ts:5-67 | 400 iff userId or userRole is missing, Ok whenever both are present; otherwise the listing, each row enriched |
| ConsultationsRoute.GetIsSortedAndComplete | app/api/consultations/route.ts:15-27 | the reply is newest update first, and holds a consultation iff it is the user's |
| ConsultationsRoute.RoleFilter | app/api/consultations/route.ts:16 | the patient filter is on patientId, and any other role is filtered on doctorId |
| ConsultationsRoute.Post | app/api/consultations/route.ts:69-108 | 400 for missing fields or no doctors; otherwise an ACTIVE consultation assigned to the first doctor, or, when the id is taken, a 500 "Internal server error" with nothing created |
| StatsRoute.SentBy | app/api/user/stats/route.ts:20-22 | the number of stored messages whose sender is the user, counted with multiplicity; zero iff there are none |
| StatsRoute.Recent | app/api/user/stats/route.ts:28-40 | the first three rows (fewer when there are fewer), in order, each with id, title, status, createdAt and consultationType |
| StatsRoute.Get | app/api/user/stats/route.ts:4-46 | 400 iff a parameter is missing, Ok whenever both are present; the count under the role filter; messages counted by sender; at most 3 recent rows, projected |
| StatsRoute.MessageCountIgnoresRole | app/api/user/stats/route.ts:20-22 | the message count does not depend on the role |
| StatsRoute.RecentAreNewest | app/api/user/stats/route.ts:25-29 | every matching row left out of the recent list was updated no later than the rows shown |
| StartAiTriage.Opened | app/api/consultations/start-ai-triage/route.ts:14-22 | the title "AI Health Assessment", no doctor, summary or urgency, ACTIVE, AI_TRIAGE, triage IN_PROGRESS, for the patient, created and updated now |
| StartAiTriage.GreetingMessage | app/api/consultations/start-ai-triage/route.ts:30-38 | the fixed greeting as an AI_TRIAGE message in the new consultation, sent as the patient, now |
| StartAiTriage.Post | app/api/consultations/start-ai-triage/route.ts:5-45 | 400 with nothing created when patientId is missing; otherwise the consultation and then exactly one greeting, returning the consultation; a failing create is a 500 |
| StartAiTriage.OpenedIsPatientsOnly | app/api/consultations/start-ai-triage/route.ts:17 | the new consultation is listed for its patient and for no doctor |
| CompleteTriage.DoctorNames | app/api/consultations/complete-triage/route.ts:59-70 | the doctor's name or "Doctor", and specialization or "", without failing |
| CompleteTriage.PatientName | app/api/consultations/complete-triage/route.ts:96-105 | the patient's name or "Patient", without failing |
| CompleteTriage.Introduce | app/api/consultations/complete-triage/route.ts:72-94 | stores the untranslated introduction; the returned content is translated only when the languages differ; originalContent is untranslated; the provider script and log advance by the one call the step makes, if any |
| CompleteTriage.AssignAndSummarize | app/api/consultations/complete-triage/route.ts:37-57 | the row gets the doctor, HUMAN, COMPLETED, the summary, the upper-cased urgency and the title; then one SYSTEM message from the patient |
| CompleteTriage.HandOver | app/api/consultations/complete-triage/route.ts:37-127 | the update, then exactly the summary and introduction messages in order; the reply carries names, doctor info and both texts of the introduction, and the cache, provider script and log are those of its translation; a failing create is a 500 that keeps the earlier writes |
| CompleteTriage.Post | app/api/consultations/complete-triage/route.ts:9-132 | 400 for missing fields, 404 for an unknown id, and 500 when no doctor exists, each with nothing changed; otherwise the row is assigned to the selected doctor, then the SYSTEM summary and the DOCTOR_INTRO message are appended in that order (a failing create is a 500 that keeps the earlier writes), and on success the cache, the provider script and log, and the reply are those of the introduction's translation |
| CompleteTriage.AssignedIsListedForBoth | app/api/consultations/complete-triage/route.ts:40 | after the hand-over both the doctor and the patient find the consultation |
| CompleteTriage.StoredUrgency | app/api/consultations/complete-triage/route.ts:45 | the stored urgency is "HIGH" for an urgent summary, else "MEDIUM" |
| CompleteTriage.TitleShape | app/api/consultations/complete-triage/route.ts:41 | the title is "Consultation - ", at most 50 leading characters of the symptoms, then "..." |
| AiTriageRoute.GenerateResponse | lib/ai.ts:23-35 | the model's text, or the fixed apology when the call fails |
| AiTriageRoute.Post | app/api/consultations/ai-triage/route.ts:4-22 | a 500 "Failed to process AI response" iff the body does not parse as a JSON object; a 400 iff messages is absent or not an array; otherwise the response unchanged, with isComplete iff it contains `TRIAGE_COMPLETE` |
| AiTriageRoute.InvalidNeedsNoModel | app/api/consultations/ai-triage/route.ts:6-10 | an unparsable or invalid body gets its 500 or 400 whatever the model would answer |
| AiTriageRoute.FallbackIsNotComplete | lib/ai.ts:31-34 | when the model fails, the reply is the apology with isComplete false |
| AiTriageRoute.UrgentMarkerIsComplete | app/api/consultations/ai-triage/route.ts:16 | a reply containing `URGENT_TRIAGE_COMPLETE:` is complete |
| AiTriageRoute.PromptMarkersAreNotRecognised | lib/ai.ts:18-19 | a reply that ends in either of the prompt's `TRIAGE_TERMINE :` formats, after any preamble, is not complete unless the preamble or the summary contains `TRIAGE_COMPLETE` |
| AiTriageRoute.PromptMarkersAreNotStripped | lib/ai.ts:18-19 | a reply that starts with a prompt marker, as a triage summary, keeps its marker in the symptom text and gets medium urgency, whatever the summary |
| ChatStore.Fresh | app/api/messages/route.ts:20 | the entries less than 3000 ms old, and no others |
| ChatStore.Without | app/api/messages/route.ts:34 | every entry except the sender's |
| ChatStore.Users | app/api/messages/route.ts:24 | the users of the entries, in order |
| ChatStore.FreshKeepsUnique | app/api/messages/route.ts:20 | expiry keeps at most one indicator per user |
| ChatStore.WithoutKeepsUnique | app/api/messages/route.ts:34 | removing the sender keeps at most one indicator per user |
| ChatStore.AfterTyping | app/api/messages/route.ts:32-39 | other users' entries are untouched; the sender has a fresh entry iff the content is truthy, otherwise none; at most one entry per user |
| ChatStore.ReportedUsers | app/api/messages/route.ts:17-26 | a user is reported iff one of their entries is less than 3000 ms old |
| ChatStore.Chat.Get | app/api/messages/route.ts:17-26 | stale indicators are dropped, then all messages and the remaining users are returned |
| ChatStore.Chat.Post | app/api/messages/route.ts:28-55 | typing updates only the indicators; message appends one message read by its sender; any other type is a 400 with nothing changed |
| ReadRoute.Upsert | app/api/messages/read/route.ts:8-20 | the pair is recorded, and every other pair is kept or left absent as before |
| ReadRoute.UpsertIsIdempotent | app/api/messages/read/route.ts:8-20 | repeating the upsert changes nothing, and an existing record is left as it is |
| ReadRoute.Post | app/api/messages/read/route.ts:4-27 | a missing field is a 500 with nothing stored; otherwise success and the upserted set; the schema constraints are kept |

## Left out

- React components, pages, the voice-triage route, e-mail, seeding and the Supabase client wrappers are not part of this model.
- The Mistral model: it is an arbitrary function from the conversation to a reply or a failure (`AiTriageRoute.Model`).
- Concurrency: the `Promise.all` fan-outs run one call after the other, so concurrent cache misses on one key are not modelled.
- Translation.TranslateMessage: a cache write that throws after a successful provider call is left out. It arises from a concurrent miss on the same key (concurrency is left out) or from a database error such as a failed foreign-key check (also left out, below).
- Reads from the database and the identity provider never throw in the model. Their 500 paths are not modelled, apart from failing creates.
- A failing `listUsers` reads as an empty user list, and so as "No doctors available".
- `getUserById` failures are modelled as unknown ids, because the library reports them as a null user.
- Pagination of `listUsers` is not modelled: the pool is one page of users.
- The schema's column defaults for consultationType and aiTriageStatus are parameters (`Store.SchemaDefaults`), since the schema is not part of this model.
- Foreign-key checks on read receipts and on translation rows are not modelled, for the same reason.
- The `prescriptions` include of the consultations listing is not modelled.
- JSON fields are strings or absent. Non-string values (numbers, objects) are not modelled, except the array check in ai-triage.
- A request body that is not a JSON object (`request.json()` throws, or destructuring a `null` body throws) is modelled only in ai-triage (`AiTriageRoute.MessagesField.Unparsable`). Elsewhere the route's catch would answer 500 (start-ai-triage, complete-triage, translate, translate-text), or the request is rejected where the parse is outside the try (consultations, messages, messages/read).
- Strings are sequences of Unicode code points, not UTF-16 code units. `substring(0, 50)` counts code points.
- Text.Lower, Text.Upper: case mapping covers ASCII letters only.
- The two `Date.now()` reads in the message POST are one clock value `now`. The first-`now`/second-`now` split is not modelled.
- `Math.random()` is an exact real in [0, 1), not a floating-point value.
- The chat sender is a string; other JSON sender values are not modelled.
- The chat stores are one `ChatStore.Chat` object instead of module-level globals shared by all requests.
- Console logging.

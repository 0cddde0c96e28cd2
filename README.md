# Kerala crop-advisory server core, modelled in Dafny

This project models the logic of a farmer-facing web service for Kerala agriculture. Four pieces are modelled:

- **The pest-detection result sanitiser** (`server/openai.ts`). The vision model's JSON reply is untrusted. Each of its eight fields is defaulted, clamped or forced into a closed set on its own. Every failure of the call or of the parse becomes one fixed error.
- **The in-memory store** (`server/storage.ts`, class `MemStorage`). It holds four insertion-ordered tables: users, detection history, market prices and weather. Writers take a fresh id and a timestamp and `set` the row. Readers filter, sort newest first, or return the first match.
- **The `POST /api/detect-pest` handler** (`server/routes.ts`), with its upload filter. It runs an ordered chain of checks and saves a detection only for a named user. A `finally` block removes the temporary upload.
- **The translation lookup of the advisory assistant** (`KrishiVaani2/translations.py`). Unknown languages fall back to the English table. Missing keys fall back to the key itself.

Files:

- `wrappers.dfy`: `Option` and `Result`.
- `collections.dfy`: the JavaScript array operations the store uses: `filter`, `find`, and the stable `sort` with a descending comparator.
- `ordered_map.dfy`: a JavaScript `Map`, meaning insertion order plus a key-to-value table.
- `schema.dfy`: the row and insert types of the four tables.
- `openai.dfy`, `storage.dfy`, `routes.dfy`, `translations.dfy`: one module per source file.

Abstractions:

- I/O and the environment are parameters. The upload directory is a set of live paths. `readFileSync` and `unlinkSync` either succeed or throw. The API key is an optional string. The chat-completion call is given as its outcome (`Upstream`).
- `randomUUID()` is a caller-supplied id, and `new Date()` / `Date.now()` is a caller-supplied `now`.
- The writers model `Map.set` exactly. A fresh id appends a row. An id already present replaces its row in place. Their contracts cover both cases.

Two facts the proofs bring out:

- **The handler's catch-block 503 is unreachable from the analyser.** `analyzePlantImage` rewraps every failure as "Failed to analyze plant image". That message never contains "API key", so the handler's `includes('API key')` test never fires for an analyser failure, and every such failure is answered with 500 (`Routes.AnalyserFailureIs500`).
- **The handler's own MIME check (routes.ts:47) is redundant behind the upload filter.** The filter already refuses non-image files before the handler runs (`Routes.StoredUploadIsImage`).

Behaviour of the code worth noting:

- Confidence: an out-of-range value is clamped. Above 100 gives 100, and a negative value gives 0.
- Detection history: it is in non-increasing `createdAt` order. Equal timestamps are possible, so the order is not strictly descending.
- Non-image upload: the `finally` block still removes the temporary file when the handler answers 400.
- 503 responses: besides the missing-key case, the handler answers 503 for any caught error whose message mentions "API key".

## Model

| member | source | states |
|---|---|---|
| `Openai.Sanitize` | server/openai.ts:67-76 | Whatever the reply holds, the result is well formed: no text field is empty and the confidence lies in [0,100]. |
| `Openai.ConfidenceClamped` | server/openai.ts:70 | The confidence is always in [0,100]. Absent gives 0, above 100 gives 100, negative gives 0, and an in-range value is kept unchanged. |
| `Openai.SeverityKeptIffValid` | server/openai.ts:71 | The severity keeps the model's value if and only if it is one of mild/moderate/severe. Otherwise it is `moderate`. |
| `Openai.UrgencyKeptIffValid` | server/openai.ts:75 | The urgency keeps the model's value if and only if it is one of low/medium/high. Otherwise it is `medium`. |
| `Openai.TextFieldsDefaulted` | server/openai.ts:68-73 | Each of disease, malayalam, treatment and malayalamTreatment keeps a non-empty string from the model. An absent or empty value takes its fixed English or Malayalam default. |
| `Openai.TipsKeptOnlyIfArray` | server/openai.ts:74 | An array of prevention tips is passed through unchanged. Anything else becomes the empty list. |
| `Openai.FieldsIndependent` | server/openai.ts:6-15 | Each output field depends only on its own input field. Fields outside the eight declared ones do not affect the result. |
| `Openai.EmbedRoundTrip` | server/openai.ts:6-15 | A well-formed result written back out as JSON and sanitised again comes back unchanged. |
| `Openai.SanitizeIdempotent` | server/openai.ts:67-76 | Sanitising an already sanitised result returns it unchanged. |
| `Openai.AnalyzePlantImage` | server/openai.ts:65-80 | The analyser succeeds exactly when the reply parsed to anything but `null`, and the result is then the sanitised, well-formed reply. A JSON value that is not an object also succeeds: reading its fields gives `undefined`, so it is modelled as the empty reply and yields the all-defaults result. A failed call, an unparseable body or a `null` body gives the single error "Failed to analyze plant image". |
| `Openai.FailuresAreWhole` | server/openai.ts:77-80 | Every failure is the one fixed error and never a partial result. |
| `Openai.CoconutLeafBlightExample` | server/openai.ts:67-76 | The reply {disease "Coconut Leaf Blight", confidence 150, severity "extreme", tips "none"} gives confidence 100, severity moderate, no tips, urgency medium and the kept disease name. |
| `Storage.NullIfEmpty` | server/storage.ts:162 | The stored value is null exactly when the string is absent or empty, and otherwise keeps it. |
| `Storage.DetectionRow` | server/storage.ts:160-165 | The stored detection carries the given id and save time, has an absent or empty user id turned into null, and copies every other insert field. |
| `Storage.WeatherRow` | server/storage.ts:208-214 | The row carries the id and the save time and copies every other insert field. A non-empty advisory is kept as it is, and an absent or empty one is stored as null, for both advisories. |
| `Storage.MemStorage.constructor` | server/storage.ts:41-49 | A new store has no users and no detections. It holds the six mock prices and the two mock weather entries, in list order. |
| `Storage.MemStorage.InitializeMockData` | server/storage.ts:51-137 | Loads exactly the mock price rows, then the mock weather rows, each under its own id. Users and detections are untouched. |
| `Storage.MemStorage.SavePrices` | server/storage.ts:104-106 | Saving each price in turn under distinct ids lists the rows in input order. |
| `Storage.MemStorage.SaveWeatherList` | server/storage.ts:134-136 | Saving each weather entry in turn under distinct ids lists the rows in input order. |
| `Storage.MemStorage.GetUser` | server/storage.ts:140-142 | Returns the user stored under the id, or nothing when there is none. |
| `Storage.MemStorage.GetUserByUsername` | server/storage.ts:144-148 | Returns the first-inserted user with the username. Nothing is returned exactly when no user has it. |
| `Storage.MemStorage.CreateUser` | server/storage.ts:150-155 | Stores the user under the id and leaves the other tables unchanged. A fresh id appends the user, and an existing id keeps its place with the new row. A duplicate username is not refused, and lookups by that name still find the earlier user. |
| `Storage.MemStorage.SaveDetection` | server/storage.ts:158-168 | Sets exactly one detection under the id and leaves the other three tables unchanged. A fresh id appends the row, and an existing id keeps its place with the new row. Afterwards `getDetection(id)` returns the stored row. |
| `Storage.MemStorage.GetUserDetections` | server/storage.ts:170-174 | Returns exactly the stored detections owned by the user, each once, in non-increasing `createdAt` order. |
| `Storage.MemStorage.GetDetection` | server/storage.ts:176-178 | Returns the detection stored under the id, or nothing when there is none. |
| `Storage.MemStorage.SaveMarketPrice` | server/storage.ts:181-190 | Sets exactly one price row, stamped with the save time, and leaves the other tables unchanged. A fresh id appends the row, and the query for the row's district then ends with it. An existing id keeps its place in the listing and gets the new row. |
| `Storage.MemStorage.GetMarketPrices` | server/storage.ts:192-198 | With no district or an empty one, returns all prices in insertion order. Otherwise returns exactly the prices of that district, as `filter` over the listing; `Collections.FilterAppend` and `Storage.DistrictQueryAppends` give the order. |
| `Collections.FilterAppend` | server/storage.ts:195 | `filter` keeps order: filtering a concatenation is the concatenation of the filtered parts. |
| `Collections.FilterKeepsAll` | server/storage.ts:195 | When every element passes, `filter` returns the sequence itself, order included. |
| `Storage.DistrictQueryAppends` | server/storage.ts:188-195 | After a price is saved under a fresh id, a district query returns the earlier rows in the same order, followed by the new row if it belongs to that district. |
| `Storage.MemStorage.GetLatestPrices` | server/storage.ts:200-203 | Returns a permutation of all stored prices in non-increasing `updatedAt` order. |
| `Storage.MemStorage.SaveWeatherData` | server/storage.ts:206-217 | Sets exactly one weather row and leaves the other tables unchanged. A fresh id appends the row, and an existing id keeps its place with the new row. Empty advisories are stored as null. |
| `Storage.MemStorage.GetWeatherData` | server/storage.ts:219-222 | Returns the first-inserted entry of the district. Nothing is returned exactly when no entry has it. |
| `Storage.MemStorage.GetLatestWeather` | server/storage.ts:224-227 | Returns a permutation of all weather entries in non-increasing `updatedAt` order. |
| `Routes.UploadIntake` | server/routes.ts:20-32 | An upload is stored if and only if its MIME type starts with "image/" and it is at most 10·1024·1024 bytes. The filter refuses it exactly when the type is not an image type. |
| `Routes.StoredUploadIsImage` | server/routes.ts:46-49 | A file the upload filter stored always passes the handler's own image check. |
| `Routes.ErrorResponse` | server/routes.ts:84-97 | A caught error is answered with 503 if and only if its message contains "API key". Any other error gets 500 carrying the message. |
| `Routes.AnalyserFailureIs500` | server/routes.ts:84-97 | Every analyser failure is answered with 500 and the message "Failed to analyze plant image". |
| `Routes.Decimal` | server/routes.ts:72 | The template literal's spelling of `Date.now()`: decimal digits, no leading zero, whose value (`DigitsValue`) is the number itself. |
| `Routes.PlaceholderPath` | server/routes.ts:72 | The saved image path is "analysis_" followed by the digits of the save time and ".jpg"; the digits spell exactly that time. It does not refer to the uploaded file's path. |
| `Routes.PlaceholderPathInjective` | server/routes.ts:72 | Distinct save times give distinct placeholder paths. |
| `Routes.DetectionInsert` | server/routes.ts:70-80 | The saved detection copies the seven result fields other than the prevention tips, under the form's user id. |
| `Routes.AnalyseAndRecord` | server/routes.ts:63-83 | On success the reply is 200 with exactly the sanitised result. A detection is saved if and only if the analysis succeeded and a user id was given. A failure goes to the catch block. |
| `Routes.Attempt` | server/routes.ts:39-97 | The order of checks and their effects: no file gives 400 with no effects; a non-image gives 400 before any read; a read error is answered by the catch block; a missing key gives 503 without calling the analyser. The storage changes only by the one saved detection. |
| `Routes.UploadDir.Unlink` | server/routes.ts:100-106 | A successful unlink removes exactly that path. A failed one removes nothing. |
| `Routes.DetectPest` | server/routes.ts:36-108 | The whole handler: the same replies and effect order as the try block, followed by cleanup. Once a path was recorded, the temporary file is gone on every exit path unless unlinking threw. The cleanup never changes the reply and removes no other file. |
| `Translations.GetTranslation` | KrishiVaani2/translations.py:78 | The lookup is total. The result is the key itself or an entry of the selected table. |
| `Translations.KnownLanguageKnownKey` | KrishiVaani2/translations.py:78 | For a known language and a key in its table, the result is that table's entry. |
| `Translations.UnknownLanguageIsEnglish` | KrishiVaani2/translations.py:78 | An unknown language code reads exactly as English. |
| `Translations.MissingKeyIsKey` | KrishiVaani2/translations.py:78 | A key missing from the selected table returns the key itself, not the English text. |
| `Translations.SparseTablesEcho` | KrishiVaani2/translations.py:64-78 | For "ta" and "te", every key other than title, location_label and system_prompt returns the key itself. |
| `Translations.TamilCropLabelEchoes` | KrishiVaani2/translations.py:64-78 | The Tamil crop label is the key "crop_label", although English translates it. |

## Left out

- The chat-completion request and its prompt text (server/openai.ts:19-63) are a foreign library call. The model receives only the call's outcome. `getCropAdvice` (server/openai.ts:83-104) is another such call with no logic beyond a fallback string.
- JavaScript coercions in the sanitiser are not modelled:
  - A non-numeric truthy confidence would give NaN, and a numeric string would be coerced. Fractions are not rounded. The model takes the confidence as an optional integer.
  - A truthy non-string value in a text field would be passed through. The model takes text fields as optional strings.
  - Tip elements are taken as strings, although the code does not check them.
- Express and multer plumbing, `fs`, base64 encoding and `process.env` are abstracted as described above. When the upload filter or the size limit refuses a file, the handler never runs. The error then goes to Express's default error handler, whose reply is not modelled.
- Logging with `console.error` is not modelled.
- The remaining routes (market prices, weather, crop advice, health; server/routes.ts:122-217) are thin wrappers over the store and are not modelled. `GET /api/detections/:userId` (server/routes.ts:111-120) returns `getUserDetections`, which is modelled.
- `async`/`await` in the store carries no real concurrency, so its methods are sequential.
- `randomUUID()` and the clock are parameters:
  - The handler uses one `now` for both the placeholder path (`Date.now()`) and the detection's `createdAt` (`new Date()`).
  - `Storage.MemStorage.constructor` stamps all eight mock rows with one `now`. The constructor also requires its mock ids to be distinct, as UUIDs are.
- Storage.MemStorage.GetUserDetections: the sort is stable (equal timestamps keep insertion order), but the contract states only order and content, not stability.
- Storage.MemStorage.GetLatestPrices: stability of the sort is likewise not stated.
- Storage.MemStorage.GetLatestWeather: stability of the sort is likewise not stated.
- The database constraints of the schema file are not modelled, such as the unique username. The in-memory store does not enforce them.
- That lookups never modify `TRANSLATIONS` holds by construction, since the tables are pure functions. No lemma states it. The Python dictionary is written as one key-to-entry function per language.
- The React client and the Streamlit assistant app are not part of this model: rendering, mock data, `localStorage`, the simulated camera and the escalation rule in the UI flow.

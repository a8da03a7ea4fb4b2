# VehicleSenseAI core, modelled in Dafny

VehicleSenseAI watches a gate camera, reads number plates and keeps a record
of which vehicles came in and when. This project models its logic in two
separate data worlds that share no tables.

**The Python backend** (`backend/`):
- `process_detection` files each plate reading under the plate's single
  *active* access session. It opens a session when there is none, links the
  session to the plate's cached owner record, and appends a detection row.
- `sweep_sessions` closes sessions not seen for `ACTIVE_SESSION_TIMEOUT_SECONDS`.
- `lookup_plate` is a read-through cache (the `owner_cache` table) in front of
  the excise web site, with a mock owner as fallback.
- `normalize_plate` cleans OCR text.
- The API endpoints add residents, look plates up, and list sessions,
  detections and residents.

**The Supabase side** (`frontend/`):
- The `submit-detection` edge function validates a report, inserts a
  detection (fatal when it fails) and an access log (best effort), looks the
  plate up among registered vehicles and answers.
- The dashboard filters the loaded detections by a case-insensitive search and
  a status filter.

How it is modelled:
- Tables are sequences of rows.
- The two stateful services are classes whose methods change those sequences:
  `Backend.Database` and `SubmitDetection.Store`.
- The pure parts are functions, with lemmas that state what they guarantee.
- Every method is proved against a specification function, or states its
  whole new state in its postcondition.
- Clocks, the excise site's answer, today's date and whether each Supabase
  request succeeds are parameters.

Modules:

| file | module | models |
|---|---|---|
| wrappers.dfy | Wrappers | `Option` |
| seqs.dfy | Seqs | `Array.filter` and order-preserving subsequences |
| query.dfy | Query | integer primary keys, `.first()`, `ORDER BY … DESC LIMIT n` |
| ascii_text.dfy | AsciiText | case mapping, `str.strip`, `String.includes` on ASCII |
| ocr.dfy | Ocr | `normalize_plate` |
| backend_models.dfy | Models | rows of access_sessions, detections, owner_cache, residents |
| excise_lookup.dfy | ExciseLookup | `lookup_plate`, `_mock_owner` on table values |
| session_manager.dfy | SessionManager | the session key, the one-active-session invariant, the sweep |
| backend_db.dfy | Backend | the database and every backend operation that writes it |
| routes.dfy | Routes | the listing endpoints |
| supabase_records.dfy | SupabaseRecords | rows of detections, access_logs, vehicles |
| submit_detection.dfy | SubmitDetection | the `submit-detection` handler |
| detections_page.dfy | DetectionsPage | `filterDetections` |

### Behaviour worth noting

- **Whitespace-only plate.** The edge function rejects only a *falsy*
  `plate_number`. A whitespace-only plate passes validation and is stored,
  because the code never trims it (`frontend/supabase/functions/submit-detection/index.ts:31`).
- **OPTIONS body.** A pre-flight OPTIONS request is answered with status 200,
  the body `ok` and the CORS headers, before the body is read (`index.ts:10-12`).
- **`is_resident`.** It is true whenever the vehicle query returns a row. The
  row's own `is_resident` column is not consulted (`index.ts:85`).
- **Only one matching vehicle counts.** `.single()` returns data only when
  exactly one vehicle row matches. With two rows for one plate, the answer is
  `is_resident: false` (`SubmitDetection.SingleVehicle`).
- **Two plate normalisations.** `process_detection` keys sessions by
  `upper().strip()` of the raw text, not by `normalize_plate`. Upper-casing
  comes before stripping, and every character is kept.
- **Closing a session moves `last_seen`.** The column is refreshed on every
  update (`backend/models/sessions.py:10`), so the sweep's UPDATE also sets
  `last_seen` of each session it closes to the time of the sweep.
- **The normaliser does not always trim.** `normalize_plate` strips *before*
  it removes characters, so its result can end in a space ("A #" gives "A ").

## Model

| member | source | states |
|---|---|---|
| Seqs.Filter | frontend/src/pages/Detections.tsx:72-77 | the result keeps exactly the elements satisfying the predicate: every kept element satisfies it and comes from the input, and every input element that satisfies it is kept |
| Seqs.FilterIsSubsequence | frontend/src/pages/Detections.tsx:72-80 | a filter's result is an order-preserving subsequence of its input |
| Query.FreshId | backend/models/sessions.py:7 | a new integer primary key is at least 1 and larger than every key in use |
| Query.FreshIdKeepsDistinct | backend/models/sessions.py:7 | appending a row with a fresh key keeps the table's keys unique |
| Query.FirstMatch | backend/detection/excise_lookup.py:19 | `.first()` on an equality filter: the index of the first row with the key, and None exactly when no row has it |
| Query.FirstMatchUnique | backend/models/owner_cache.py:8 | on a unique column, the first match is the only row holding the key |
| Query.InsertDesc | backend/api/routes.py:56 | inserting into a descending sequence keeps it descending and adds exactly that element |
| Query.SortDesc | backend/api/routes.py:56 | `ORDER BY key DESC`: the result is descending by key and a permutation of the input |
| Query.Limit | backend/api/routes.py:61 | `LIMIT n` keeps a prefix of length min(n, size); a negative n keeps everything |
| Query.NewestFirst | backend/api/routes.py:56 | `ORDER BY key DESC LIMIT n`: at most n rows (all rows when n is negative), descending, drawn from the table, and every row left out has a key no larger than any row kept |
| AsciiText.UpperChar | backend/detection/session_manager.py:26 | a lower-case ASCII letter becomes its upper-case letter; every other character is unchanged |
| AsciiText.LowerChar | frontend/src/pages/Detections.tsx:74 | an upper-case ASCII letter becomes its lower-case letter; every other character is unchanged |
| AsciiText.Strip | backend/detection/session_manager.py:26 | `str.strip()`: the result is the slice of the input after its leading whitespace, only whitespace follows it, and it neither starts nor ends with whitespace |
| Ocr.KeepPlateChars | backend/detection/ocr.py:51 | deletes every character outside upper-case letters, digits, '-' and space: every character kept is a plate character, every plate character of the input is kept, and the kept characters appear in the input in the same order |
| Ocr.CollapseWhitespace | backend/detection/ocr.py:52 | `re.sub(r'\s+', ' ', t)`: never longer than the input |
| Ocr.CollapseFacts | backend/detection/ocr.py:52 | the collapse yields no two adjacent spaces, every other character comes from the input and is not whitespace, and the letters, digits and dashes are exactly those of the input, in order |
| Ocr.SkipRun | backend/detection/ocr.py:52 | whitespace that continues a run already turned into a space produces nothing |
| Ocr.CollapseRun | backend/detection/ocr.py:52 | a run of whitespace after text without whitespace becomes exactly one space, and that text is kept unchanged |
| Ocr.NormalizeSeparatesWords | backend/detection/ocr.py:45-53 | two words of letters, digits and dashes separated by any number of spaces normalise to the upper-cased words joined by one space ("mh  12" gives "MH 12") |
| Ocr.NormalizePlate | backend/detection/ocr.py:45-53 | "" for None or "", otherwise only characters of `[A-Z0-9- ]`, no two adjacent spaces, and never longer than the input |
| Ocr.StripKeepsSymbols | backend/detection/ocr.py:49 | stripping removes no letter, digit or dash |
| Ocr.NormalizeKeepsSymbols | backend/detection/ocr.py:49-51 | without its spaces, the normalised plate equals the upper-cased input restricted to `[A-Z0-9-]`, in the same order |
| Ocr.NormalizeUppercasesCleanText | backend/detection/ocr.py:49 | text made only of letters of either case, digits and dashes normalises to its upper-cased form |
| Ocr.CollapseIdentity | backend/detection/ocr.py:52 | text made only of upper-case letters, digits and dashes is left unchanged by the whitespace collapse |
| ExciseLookup.MockOwner | backend/detection/excise_lookup.py:60-66 | the stand-in record: owner 'Owner of ' followed by the plate, model 'Unknown Model', no registration date, and the mock source as raw data |
| ExciseLookup.Fetch | backend/detection/excise_lookup.py:29-44 | a 200 response gives the placeholder parse: owner 'Parsed Owner', model 'Parsed Model', today's date and the response body; no base URL, any other status or an exception gives `_mock_owner(plate)` |
| ExciseLookup.Encode | backend/detection/excise_lookup.py:52 | `json.dumps(raw or {})`: a truthy value is dumped as itself, and None, "" and {} are each dumped as {} |
| ExciseLookup.Lookup | backend/detection/excise_lookup.py:11-58 | afterwards the cache holds the plate. On a hit, the first cached row's four columns are returned and the cache is unchanged. On a miss, the fetched owner is returned and exactly one row is appended under a fresh key, with the same name, model and date and the encoded raw data |
| ExciseLookup.LookupKeepsCacheUnique | backend/detection/excise_lookup.py:19-55 | a lookup never gives the cache a second row for a plate or a repeated key |
| ExciseLookup.LookupTwice | backend/detection/excise_lookup.py:19-27 | a second lookup of a plate returns the first call's name, model and date, whatever the site answers, and adds no row |
| ExciseLookup.MissWithoutSiteIsMock | backend/detection/excise_lookup.py:60-66 | on a miss without a usable site answer, "Owner of " + plate, "Unknown Model", no date and the mock source are returned and cached, with the raw data stored dumped |
| SessionManager.SessionPlate | backend/detection/session_manager.py:26 | the session key `(text or "").upper().strip()`: "" for None, no lower-case letter, no surrounding whitespace, never longer than the input |
| SessionManager.SessionPlateContent | backend/detection/session_manager.py:26 | the session key is the upper-cased text minus its leading and trailing whitespace: only whitespace precedes and follows it, and it is the contiguous slice in between |
| SessionManager.FindActive | backend/detection/session_manager.py:30 | the first active session for the plate, and None exactly when the plate has no active session |
| SessionManager.FindActiveUnique | backend/detection/session_manager.py:30 | while no plate has two active sessions, any active session for the plate is the one found |
| SessionManager.UpdateKeepsInvariant | backend/detection/session_manager.py:31-34 | changing a session's `last_seen` or `owner_id` keeps the keys and the one-active-session-per-plate invariant |
| SessionManager.OpenKeepsInvariant | backend/detection/session_manager.py:35-39 | opening an active session for a plate without one keeps the invariant |
| SessionManager.Expire | backend/detection/session_manager.py:74-77 | an active session last seen before the threshold becomes exited, with exit time and last_seen set to the sweep time; any other session is unchanged; id, plate, entry time and owner link are always kept, and a session still active afterwards was seen at or after the threshold |
| SessionManager.Swept | backend/detection/session_manager.py:73-77 | the sweep keeps the number of sessions |
| SessionManager.SweptEach | backend/detection/session_manager.py:73-77 | an active session last seen before the threshold becomes exited, with its exit time and its `last_seen` (rewritten on update, backend/models/sessions.py line 10) both set to the sweep's clock and nothing else changed; every other session, exited ones included, is unchanged |
| SessionManager.SweptLeavesNoStale | backend/detection/session_manager.py:71-77 | after the sweep no active session was last seen before the threshold |
| SessionManager.SweptIdempotent | backend/detection/session_manager.py:67-78 | a second sweep with the same threshold changes nothing, whatever exit time it would write |
| SessionManager.SweptKeepsInvariant | backend/detection/session_manager.py:73-77 | the sweep keeps every key and the one-active-session-per-plate invariant |
| Backend.Database.LookupPlate | backend/detection/excise_lookup.py:11-58 | the returned owner and the new cache are those of `Lookup`; keys and plates stay unique |
| Backend.Database.ProcessDetection | backend/detection/session_manager.py:15-65 | see the detail below this table |
| Backend.Database.OpenOrRefresh | backend/detection/session_manager.py:30-39 | refreshes `last_seen` of the plate's active session, or appends one new active session under a fresh key; the result indexes the plate's only active session |
| Backend.Database.LinkOwner | backend/detection/session_manager.py:47-51 | only the session's `owner_id` changes, and it stays the plate's active session |
| Backend.Database.RecordDetection | backend/detection/session_manager.py:54-56 | exactly one detection is appended under a fresh key |
| Backend.Database.SweepSessions | backend/detection/session_manager.py:67-80 | the loop leaves the table equal to `Swept` with threshold now − 300: stale active sessions exited with exit time and `last_seen` set to the sweep's clock, all others untouched; the invariants are kept |
| Backend.Database.AddResident | backend/api/routes.py:96-104 | a registered plate gives "exists" and leaves the table unchanged; otherwise exactly one resident with the given fields is appended under a fresh key, which is returned; plates stay unique |
| Backend.Database.ManualLookup | backend/api/routes.py:111-115 | the plate is echoed unnormalised with its owner lookup, and the cache changes as `Lookup` says |
| Routes.SelectSessions | backend/api/routes.py:51-56 | at most 500 sessions, only active ones when asked, drawn from the table, most recently seen first. Every eligible session left out was seen no later than any session listed, and fewer than 500 means every eligible session is listed |
| Routes.ListSessions | backend/api/routes.py:57 | one entry per selected session, in order, with its id, plate, times and status |
| Routes.ListSessionsShape | backend/api/routes.py:54-56 | the session listing has at most 500 entries, only active ones when asked, and is most recently seen first |
| Routes.SelectDetections | backend/api/routes.py:61 | at most `limit` detections (all of them, or exactly `limit`), newest first, drawn from the table, and every detection left out is no newer than any listed |
| Routes.ListDetections | backend/api/routes.py:59-62 | entry i is the id, session, timestamp, text, confidence and image path of the i-th selected detection; at most `limit` entries, newest first |
| Routes.DefaultDetectionListing | backend/api/routes.py:60-61 | without a `limit`, the listing has min(100, size) entries and no detection left out is newer than one listed |
| Routes.ListResidents | backend/api/routes.py:106-109 | entry i is the id, plate, name, apartment and phone of the i-th resident, in table order |
| Routes.ListResidentsAfterAdd | backend/api/routes.py:101-109 | a resident appended by POST /residents shows up once more at the end of the listing with the fields it was added with, and earlier entries stay as they were |
| Routes.ListVehicles | backend/api/routes.py:123-125 | GET /vehicles answers exactly the resident listing |
| Routes.ListOwners | backend/api/routes.py:128-130 | GET /owners answers exactly the resident listing |
| Routes.ListVerifications | backend/api/routes.py:133-135 | GET /verifications answers exactly the listing of all sessions |
| SubmitDetection.TextOrNull | frontend/supabase/functions/submit-detection/index.ts:44 | `v \|\| null` on a string: null exactly when absent, null or empty, else the value itself |
| SubmitDetection.NumberOrNull | frontend/supabase/functions/submit-detection/index.ts:45 | `v \|\| null` on a number: null exactly when absent, null or zero, else the value itself |
| SubmitDetection.StatusOrUnknown | frontend/supabase/functions/submit-detection/index.ts:48 | a non-empty status is kept; an absent, null or empty one becomes 'Unknown' |
| SubmitDetection.NewDetection | frontend/supabase/functions/submit-detection/index.ts:41-50 | the inserted detection has the plate upper-cased with no lower-case letter left, the status defaulted, and the four optional fields set to null when falsy |
| SubmitDetection.StatusMessage | frontend/supabase/functions/submit-detection/index.ts:66 | the success message is 'Vehicle ', the plate as given, ' detected - Status: ' and the status or 'Unknown', in that order |
| SubmitDetection.ErrorText | frontend/supabase/functions/submit-detection/index.ts:96 | a thrown Error gives its message; any other thrown value gives 'Unknown error occurred' |
| SubmitDetection.VehiclesWithPlate | frontend/supabase/functions/submit-detection/index.ts:75-78 | `.eq('plate_number', plate)` as a filter: exactly the registered vehicles with that plate |
| SubmitDetection.SingleVehicle | frontend/supabase/functions/submit-detection/index.ts:75-79 | `.single()`: a vehicle exactly when one row matches, and then it is that row |
| SubmitDetection.UniquePlateIsFound | frontend/supabase/functions/submit-detection/index.ts:75-86 | while registered plates are unique, a plate is reported as resident exactly when it is registered, with its own row |
| SubmitDetection.Store.Serve | frontend/supabase/functions/submit-detection/index.ts:9-105 | see the detail below this table |
| DetectionsPage.FilterDetections | frontend/src/pages/Detections.tsx:68-84 | see the detail below this table |
| DetectionsPage.FilterIsOnePass | frontend/src/pages/Detections.tsx:69-81 | the two successive filters equal one filter by the conjunction of the search and status conditions |
| DetectionsPage.FilterKeepsOrder | frontend/src/pages/Detections.tsx:69-80 | the shown list is an order-preserving subsequence of the loaded detections |
| DetectionsPage.SearchIgnoresCase | frontend/src/pages/Detections.tsx:74-75 | search terms that agree once lower-cased show the same list |
| DetectionsPage.LongerTermNarrows | frontend/src/pages/Detections.tsx:71-77 | extending the search term only removes detections from the list |

Detail for three rows:

- **Backend.Database.ProcessDetection**
  - The plate is `SessionPlate` of the input.
  - The owner and the cache are those of `Lookup`.
  - If the plate had an active session, only that session's `last_seen` and `owner_id` change. Otherwise exactly one active session is appended, with entry time = last seen = now.
  - Either way, the session is linked to the plate's cache row, and it is afterwards the plate's only active session.
  - Exactly one detection is appended, under that session's id, with the plate as `ocr_text` and the given camera.
  - The result carries the session id, the plate and the owner.
  - No plate ever has two active sessions.
- **SubmitDetection.Store.Serve**
  - OPTIONS gives 200 'ok' with the CORS headers.
  - Every other response also carries `Content-Type: application/json`.
  - An unparsable body gives 500 with the parse error's message.
  - A falsy plate gives 400 "plate_number is required".
  - A non-string plate gives 500 with the TypeError's message.
  - A failed detection insert gives 500 with its message. In all these cases nothing is written.
  - Otherwise exactly one detection is appended, and one access log is attempted with the original-case plate in its message; its failure changes nothing else.
  - The 200 answer reports the single matching vehicle, if any. Vehicles are never written.
- **DetectionsPage.FilterDetections**
  - A detection is shown exactly when it was loaded and passes both active conditions.
  - An empty term with "all" shows the whole list.
  - A detection without an owner name matches the search only through its plate.

## Left out

- Vision and OCR engines are outside the model: `backend/detection/detector.py`, `ocr_image` and `get_reader` in `ocr.py`, and `backend/detection/run_detection.py`. They are foreign libraries, camera I/O and floating point.
- Saving the crop image is I/O. `Backend.Database.ProcessDetection` takes the saved path as a parameter.
- The endpoints that write files (`upload_detection`), echo a payload (`receive_detection`), or only call the sweep (`/status`) are not modelled. The mock auth and start/stop endpoints are not modelled either: they are file handling, echoes or constant replies.
- The excise HTTP request, its eight-second timeout and its HTML are not modelled. Its outcome is the `ExciseReply` parameter. `json.dumps` is kept opaque (`RawData.Dumped`).
- SQLAlchemy sessions, commits, the identity map and concurrent requests are not modelled. Each operation is one atomic step over in-memory tables, and rows are values, not aliased objects.
- `owner_cache.last_checked` and other server-side defaults are not modelled. The detection timestamp and `last_seen` are the call's `now`, except that a session closed by the sweep gets the sweep's `exitTime` as its `last_seen`.
- Integer keys follow SQLite's rule (largest key + 1). Supabase's UUID keys are modelled as fresh integers.
- `Backend.Database.SweepSessions`: one `exitTime` parameter stands for the clock that `sweep_sessions` re-reads for each session and for the database clock that refreshes `last_seen` when the sweep's UPDATE is flushed; the model does not distinguish these readings.
- `SessionManager.ActiveTimeoutSeconds` is the setting's default of 300. Overriding it from the environment is not modelled.
- `Ocr.NormalizePlate` requires ASCII input, because only ASCII case mapping and whitespace are modelled. Python's Unicode `upper`, `strip` and `\s` are not modelled.
- `SessionManager.SessionPlate` requires ASCII input, for the same reason.
- `Backend.Database.ProcessDetection` requires an ASCII plate text, for the same reason.
- `SubmitDetection.NewDetection` requires an ASCII plate, because JavaScript's Unicode `toUpperCase` is not modelled.
- `SubmitDetection.Store.Serve` requires an ASCII plate, for the same reason. Both timestamps the handler takes are the single `now` parameter. Body fields other than the plate are taken to be strings or numbers when present; other JSON types in those fields, and JSON bodies that are not objects, are not modelled. A NaN confidence is not modelled. Console logging is left out.
- `SubmitDetection.Store.Serve` has the storage outcomes as inputs. PostgREST's error objects are modelled only as "an Error with a message" or "another value".
- `DetectionsPage.FilterDetections` maps case on ASCII letters only. JavaScript's Unicode `toLowerCase` is not modelled.
- Fetching detections, the realtime subscription and the React rendering of the dashboard are not modelled. Neither are the other pages, the Supabase client, or the app and layout components: they are UI and network plumbing.
- The order among rows with equal sort keys in the listings is not stated. SQL leaves it unspecified.

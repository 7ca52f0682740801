# Licence-plate pipeline and API-key guard, in Dafny

This project models the decision logic of a licence-plate recognition service and proves properties of it. The modelled parts are:

- The OCR normaliser `padronizar_resultado_ocr_bruto`, which exists in two copies (main.py and app/services/task.py). Both are written once in `OcrNormalise`, with a `Copy` parameter for the one place they differ.
- The four-attempt OCR fallback chain. `OcrChain` holds the per-call wrappers `chamar_ocr` and the loops of both copies.
- How each copy reads the plate detector's reply and finds the crop image (`Detector`).
- The two pipelines end to end: main.py's `processar_placa` route (`MainPipeline`) and the job `process_plate_image_task` (`TaskPipeline`).
- The result file both pipelines write next to the crop (`ResultFiles`).
- The `/processar-placa` route of the versioned API (`PlatesEndpoint`).
- The API-key table and its CRUD operations, plus the service that creates keys and guards each call with a budget (`ApiKeys`).

These effects are inputs to the model:

- **Remote calls.** The detector's reply is a value. The OCR backends are an oracle `(call index, request) -> reply`.
- **JSON decoding.** `json.loads` is a parameter `string -> Option<Json>`.
- **Files.** The crop store is a map from path to bytes, and "the result file could be written" is a boolean.
- **Hashing.** bcrypt's hash and verify are parameters.

JSON values are the datatype `PyValues.Json`. On it the model defines Python's truthiness, `dict.get`, the `in` operator and `posixpath.join`.

Behaviours of the code worth knowing, all modelled as written:

- main.py answers a failed result-file write with a 500. app/services/task.py prints the failure and still returns the result.
- A 404 from the detector does not stop either copy. On a 404, main.py always derives the crop path from `file_id`. task.py uses `arquivo` when the reply has it, and derives the path from `file_id` otherwise, exactly as it does for a 200.
- The budget check and the increment of the key guard are two separate steps. The model is single-threaded, so only the sequential invariant is stated.
- `os.path.join` is modelled with its POSIX semantics. An absolute `file_id` therefore makes the derived path leave the output directory.

## Model

| member | source | states |
|---|---|---|
| Seqs.FirstWhere | app/services/api_key_service.py:43-47 | the index of the first element satisfying the predicate, or the length; no earlier element satisfies it |
| PyValues.Truthy | main.py:179 | `bool(v)`: a value is falsy exactly when it is None, False, 0, "", [] or {} |
| PyValues.Get | main.py:58 | `dict.get`: the stored value when the key is present, else None |
| PyValues.HttpOk | app/services/task.py:36-39 | requests' `Response.ok`, false exactly for statuses 400-599, where `raise_for_status` raises |
| PyValues.StartsWith | main.py:111 | `str.startswith`: the prefix fits and matches `s` character by character |
| PyValues.JoinTwo | main.py:136-138 | `os.path.join`: an absolute second part replaces the first; otherwise the result is `a + b` when `a` is empty or ends in `/`, and `a + "/" + b` in every other case |
| PyValues.Join | main.py:136-138 | three-part `os.path.join`: an absolute leaf is the whole path and a relative one always ends it; a non-empty directory not ending in `/` and a plain name (non-empty, no leading or trailing `/`) get one `/` between them; an absolute middle part discards the directory |
| PyValues.In | app/services/task.py:44-46 | Python's `key in value`: membership among a dict's keys, among a list's items, or as a substring of a string; it raises exactly on numbers, booleans and None |
| OcrNormalise.ShapeOf | main.py:46-76 | a reply is the legacy wrapper iff it is a dict with `resultado`, and the direct form iff it is a dict with `results` but no `resultado` |
| OcrNormalise.LeadPlate | main.py:58 | `results[0].get("plate") if results else None` (task.py: `results[0]["plate"]`): None for falsy results; otherwise the first dict's plate; it raises for a non-list or a non-dict first item, and, for the task.py copy, exactly when that dict has no `plate` |
| OcrNormalise.FromResults | main.py:70-74 | the canonical dict is returned iff the lead plate can be read; it is well formed and keeps `results` unchanged |
| OcrNormalise.Normalise | main.py:29-76 | every returned value is well formed: `placa` is the first result's plate, or None when `results` is falsy; an unrecognised reply gives the empty value; truthy results come only from a direct list (kept unchanged) or from a string wrapper |
| OcrNormalise.WrapperKeepsInnerResults | main.py:50-60 | a wrapper whose string parses to a dict with `results` yields that list unchanged, with the first item's plate |
| OcrNormalise.WrapperWithoutResultsIsEmpty | main.py:54-64 | a wrapper whose string does not parse, or parses to a dict without `results`, yields `{placa: None, results: []}` |
| OcrNormalise.DirectListKept | main.py:68-74 | `{"results": L}` yields `results = L`, with `placa = None` for an empty `L` and the first plate otherwise |
| OcrNormalise.WrapperTakesPrecedence | main.py:50-68 | when both keys are present, `results` is ignored and only `resultado` matters |
| OcrNormalise.CopiesAgree | app/services/task.py:76-94 | the two copies return the same value whenever the task.py copy returns; they differ exactly when the first result is a dict without `plate` (main.py gives `placa = None`, task.py raises) |
| OcrNormalise.ResultsAgree | app/services/task.py:81-93 | the same agreement, for the step that builds the value from a `results` field |
| OcrNormalise.NormaliseIdempotent | main.py:68-74 | a well-formed value handed back as a dict normalises to itself |
| OcrNormalise.RenormaliseIsIdentity | main.py:29-76 | normalising the normaliser's own output gives it back, for both copies |
| OcrChain.Attempts | main.py:164-169 | four requests in the order ezOCR+class, OCR+class, ezOCR+none, OCR+none |
| OcrChain.FormData | main.py:84 | the `categoria` field is sent iff the hint is truthy, and then carries the hint |
| OcrChain.CallMain | main.py:82-102 | main.py's `chamar_ocr` returns only on a 200 reply with a JSON body, and then returns exactly the main.py normaliser's outcome on that body; everything else is the RuntimeError |
| OcrChain.CallTask | app/services/task.py:96-110 | task.py's `chamar_ocr` always returns a well-formed value; no answer, a 4xx/5xx status or a non-JSON body gives the empty value; otherwise it is the task.py normaliser's reading of the body, or the empty value when the normaliser raises |
| OcrChain.OutcomesMain | main.py:173-177 | the i-th outcome is main's `chamar_ocr` on the reply to the i-th attempt |
| OcrChain.OutcomesTask | app/services/task.py:113-114 | the i-th outcome is task.py's `chamar_ocr` on the reply to the i-th attempt |
| OcrChain.Winner | main.py:173-181 | some result ends the chain iff some attempt returned a value with truthy `placa` or truthy `results`; the result is that of the first such attempt, and it is non-empty |
| OcrChain.RunChainMain | main.py:171-185 | the loop returns the first non-empty attempt's result; if none, it returns a value that is empty and well formed and is either the initial empty value or some attempt's value |
| OcrChain.RunChainTask | app/services/task.py:112-119 | the loop and the check after it return the first non-empty attempt's result, else exactly `{placa: None, results: []}` |
| OcrChain.WinnerIgnoresLaterAttempts | main.py:179-181 | once an attempt ends the chain, later attempts cannot change the result |
| OcrChain.FirstAttemptWinsMain | main.py:164-181 | if ezOCR with the class hint reads a plate, main's chain returns exactly that reading |
| OcrChain.DirectReplyEndsChainMain | main.py:94-98 | a 200 reply `{"results": [dict, ...]}` ends main.py's chain, with that list as `results` and the first dict's plate as `placa` |
| OcrChain.FirstAttemptWinsTask | app/services/task.py:69-116 | the same for task.py's chain |
| OcrChain.FailedAttemptIsSkipped | main.py:183-185 | removing a failed attempt does not change the chain's result |
| OcrChain.AllErrorStatusesGiveEmptyTask | app/services/task.py:99-110 | when every backend answers with an error status, no attempt ends task.py's chain |
| OcrChain.NoSuccessfulReplyGivesNothingMain | main.py:94-102 | when no backend answers 200, no attempt ends main's chain |
| OcrChain.FalsyHintSendsNoCategory | main.py:84 | with a falsy hint no attempt sends `categoria`, so hinted and unhinted calls send the same form data |
| Detector.DetectMain | main.py:122-160 | "YOLO falhou" happens exactly for a JSON reply with a status other than 200 and 404; every other failure is "Falha ao obter imagem da placa". A dict reply succeeds on 200 iff it has a string `arquivo` naming a stored crop and a `file_id`. It succeeds on 404 iff its string `file_id` derives a stored crop path. The detection then carries that crop, the `file_id` and the `classe` |
| Detector.MainCropPath | main.py:130-138 | on 200 the path is `arquivo` (its absence raises); on 404 it is derived from a string `file_id` and `arquivo` is ignored |
| Detector.MainUsesArquivoOn200 | main.py:130-132 | on 200 the crop is read at `arquivo` |
| Detector.MainDerivesPathOn404 | main.py:134-138 | on 404 the crop is read at `<dir>/<file_id>/<file_id>.jpg` |
| Detector.MainPathPrecedence | main.py:130-151 | every success of main.py's stage 1 read a dict with `file_id`: on 200 the crop at a string `arquivo`, on 404 the crop at the path derived from a string `file_id` |
| Detector.MainNeedsArquivoOn200 | main.py:130-132 | a 200 reply without `arquivo` fails, even when the crop derived from `file_id` exists, unlike task.py |
| Detector.DetectTask | app/services/task.py:30-66 | success needs a 404 or non-error status, and the crop comes from the file store; an HTTP error is reported exactly for a 4xx/5xx status other than 404, before the body is read |
| Detector.TaskCropPath | app/services/task.py:43-51 | `arquivo` wins whenever present, whatever the status; without it the path is derived from a string `file_id` (a non-string raises); with neither key the path is None |
| Detector.TaskUsesArquivo | app/services/task.py:44-63 | for any output directory, a non-empty `arquivo` whose file exists gives that crop, with the reply's `file_id` and `classe` |
| Detector.TaskDerivesFromFileId | app/services/task.py:46-63 | for any output directory, a reply without `arquivo` whose string `file_id` names a stored crop at the derived path gives that crop, that id and the reply's `classe` |
| Detector.TaskTreats404AsOk | app/services/task.py:36-39 | a 404 reply is handled exactly like a 200 reply with the same body |
| Detector.TaskPathPrecedence | app/services/task.py:43-51 | on success the crop was read at `arquivo` when present, else at the path derived from `file_id` |
| Detector.TaskNeedsAPath | app/services/task.py:53-54 | a reply with neither key fails with "no valid path" |
| Detector.TaskMissingCrop | app/services/task.py:59-60 | a non-empty path with no file fails with "crop not found" for that path |
| Detector.TaskListReplyHasNoPath | app/services/task.py:43-54 | a JSON list without those keys as items also fails with "no valid path" |
| Detector.TaskDerivedRoundTrip | app/services/task.py:43-63 | `{"file_id": "abc", "classe": "car"}` with output directory `/brplates/runs` reads `/brplates/runs/abc/abc.jpg` and carries the id and class on |
| Detector.StemPath | app/services/task.py:47-51 | `os.path.join(dir, file_id, file_id + ext)` always ends in `<file_id><ext>`; it is `<dir>/<file_id>/<file_id><ext>` for a plain `file_id` under a non-empty directory not ending in `/`, and `<file_id><ext>` alone for an absolute `file_id`; the crop path uses `.jpg`, the result file `.txt` |
| ResultFiles.ResultFileSharesCropStem | main.py:136-200 | for every directory and id, the result file and the derived crop path differ only in the `.txt`/`.jpg` extension |
| Detector.AbsoluteFileIdEscapesOutputDir | app/services/task.py:47-51 | a `file_id` of `/x` derives the path `/x.jpg`, whatever the output directory |
| MainPipeline.Alternatives | main.py:224-228 | defined iff every candidate is a dict with `plate`; then its elements are exactly the candidate plates that differ from `placa` |
| MainPipeline.CandidateItems | main.py:227 | what `for c in candidates` visits: a list's items; nothing for an empty string or dict; it fails for anything else, including a non-empty string or dict, whose items make `c["plate"]` raise |
| MainPipeline.ProjectMain | main.py:216-230 | the projection succeeds iff the first result is a dict with `plate` and, when `candidates` is present, every candidate is a dict with `plate`; `placa` is that plate; `alternativas` is empty without `candidates` and otherwise is the filtered candidate plates, in order |
| MainPipeline.AlternativesConcat | main.py:226-228 | the filter distributes over concatenation, so candidate order is kept |
| MainPipeline.AlternativesSingle | main.py:227 | one candidate contributes its plate unless it equals `placa` |
| MainPipeline.PrimaryPlateIsFilteredOut | main.py:226-228 | for plate ABC1234 with candidates ABC1234 and ABC1Z34, the alternatives are just ABC1Z34 |
| MainPipeline.Projected | main.py:214-237 | the route's 200 body carries the projection's `placa` and `alternativas` exactly when the projection succeeds; otherwise it is the stage-4 500 |
| MainPipeline.ProcessPlate | main.py:108-237 | the full case analysis of the route: 400 for a non-image; the detector's error; 404 when the chain finds nothing; 500 when the result file cannot be written for a truthy `file_id`; otherwise the projection, with the result file written at `<dir>/<file_id>/<file_id>.txt` holding the chain's result |
| TaskPipeline.ChainValue | app/services/task.py:112-119 | the chain's value is well formed, and either non-empty or exactly the empty value |
| TaskPipeline.ProcessPlateTask | app/services/task.py:8-135 | detector failures give the error dict and no file; otherwise the chain's value is returned whatever happens to the write, and the file is written only when `file_id` and `placa` are truthy and the write succeeds |
| TaskPipeline.AllBackendsFailingGivesEmpty | app/services/task.py:99-119 | when all four backends fail with error statuses, the job returns exactly `{placa: None, results: []}` |
| PlatesEndpoint.Alternatives | app/api/v1/endpoints/plates.py:53-58 | at most one alternative per candidate; every alternative is truthy and differs from `placa`; it keeps exactly the candidate plates that pass that test |
| PlatesEndpoint.AlternativesConcat | app/api/v1/endpoints/plates.py:54-58 | the filter distributes over concatenation, so candidate order is kept |
| PlatesEndpoint.AlternativesKeepAll | app/api/v1/endpoints/plates.py:54-58 | when no candidate is filtered out, the alternatives are all candidate plates, in order |
| PlatesEndpoint.Project | app/api/v1/endpoints/plates.py:50-58 | `placa` is the top result's plate; `alternativas` is empty when the top result has no or empty candidates, and otherwise is the filtered candidate plates |
| PlatesEndpoint.Body | app/api/v1/endpoints/plates.py:42-58 | the not-found exception is raised iff `placa` is falsy and `results` is empty; an IndexError iff `placa` is truthy and `results` is empty; otherwise the top result is projected |
| PlatesEndpoint.HandleAsWritten | app/api/v1/endpoints/plates.py:32-73 | as written: 400 for a non-image; an image with a non-empty result list gets the projection of its first result; the route never answers 404, because an image with nothing read becomes an unexpected 500 |
| PlatesEndpoint.Handle | app/api/v1/endpoints/plates.py:32-73 | as intended: 400 for a non-image; 404 exactly for an image whose result has nothing read; a non-empty result list gives the projection of its first result; a RuntimeError gives the pipeline 500 and any other failure, or an empty list with a truthy `placa`, the unexpected-error 500 |
| PlatesEndpoint.HandleFiltersPrimaryPlate | app/api/v1/endpoints/plates.py:50-60 | plate ABC1234 with candidates ABC1234 and ABC1Z34 is answered with ABC1234 and the single alternative ABC1Z34 |
| PlatesEndpoint.AsWrittenEmptyResultIs500 | app/api/v1/endpoints/plates.py:38-73 | an `image/jpeg` upload with an empty result gets the unexpected-error 500 |
| PlatesEndpoint.HandleDiffersOnlyOnNotFound | app/api/v1/endpoints/plates.py:42-73 | the written and intended routes differ exactly on the not-found case |
| ApiKeys.Incremented | app/crud/api_key.py:37-43 | `calls_made` goes up by one and no other field changes |
| ApiKeys.Deactivated | app/crud/api_key.py:46-52 | the key becomes inactive and no other field changes |
| ApiKeys.Authorize | app/services/api_key_service.py:28-65 | the call is accepted iff the first active row whose hash verifies the key has budget left; then that row is returned with one more call and is the only change; a rejection changes nothing |
| ApiKeys.NoMatchRejects | app/services/api_key_service.py:41-50 | with no active row whose hash verifies, the result is None and the table is unchanged |
| ApiKeys.SuccessUsesFirstMatch | app/services/api_key_service.py:41-65 | on success the row is the first active one whose hash verifies; it had budget left; it is returned with one more call; no other row changes |
| ApiKeys.FirstValidKeyWithBudgetIsAccepted | app/services/api_key_service.py:41-65 | when row `i` is the first active row whose hash verifies the key and it has budget left, the call is accepted with row `i` incremented and no other row changed |
| ApiKeys.ExhaustedRejects | app/services/api_key_service.py:52-54 | a matched row with `calls_made >= call_limit` gives None and nothing changes |
| ApiKeys.SpentKeyScenario | app/services/api_key_service.py:52-54 | a key with limit 1 and 1 call made is rejected and stays at 1 |
| ApiKeys.DeactivatedNeverAuthorizes | app/services/api_key_service.py:41 | a deactivated row is never the one selected |
| ApiKeys.AuthorizeKeepsBudgets | app/services/api_key_service.py:52-63 | sequentially, `calls_made <= call_limit` for every row is preserved |
| ApiKeys.AuthorizeOnlyRaisesCounts | app/services/api_key_service.py:62-63 | no row's count goes down, and no other field changes |
| ApiKeys.AuthorizeCountsOneCall | app/services/api_key_service.py:62-65 | the table's total call count rises by one exactly when a call is accepted |
| ApiKeys.HashInput | app/core/security.py:16-21 | bcrypt sees the first 72 characters of the key, or the whole key when it is shorter |
| ApiKeys.KeyStore.CallLimitFor | app/crud/api_key.py:20-24 | the supplied limit when one is given (0 included), else the default |
| ApiKeys.KeyStore.GetByHash | app/crud/api_key.py:7-9 | a row with that hash, or None when there is none; since hashes are unique, that row is the only one |
| ApiKeys.KeyStore.GetById | app/crud/api_key.py:12-14 | the row with that id, or None when there is none; since ids are unique, that row is the only one |
| ApiKeys.KeyStore.CreateApiKey | app/crud/api_key.py:17-34 | a duplicate hash is rejected with the table unchanged; otherwise the new row (next id, the hash, the description, the chosen limit, 0 calls, active) is appended; ids and hashes stay unique |
| ApiKeys.KeyStore.IncrementCalls | app/crud/api_key.py:37-43 | only row `i` changes, and only its count, up by one |
| ApiKeys.KeyStore.Deactivate | app/crud/api_key.py:46-52 | only row `i` changes, and only by becoming inactive |
| ApiKeys.DeactivateIdempotent | app/crud/api_key.py:46-52 | deactivating twice is the same as deactivating once |
| ApiKeys.ScanActive | app/services/api_key_service.py:41-47 | the loop stops at the first active row whose hash verifies, or runs off the end when there is none |
| ApiKeys.ValidateAndUseApiKey | app/services/api_key_service.py:28-65 | the returned row and the new table are exactly what `Authorize` gives for the old table; ids stay unique and budgets stay within limits |
| ApiKeys.CreateNewApiKey | app/services/api_key_service.py:15-26 | a key is created exactly when no stored row has its hash, and a duplicate hash is the only error, leaving the store unchanged; on success the response carries the plain key, the next id, the request's description, the creation time, 0 calls, active, the chosen limit, and equals the appended row, which stores the hash of the key's first 72 characters |

## Left out

- HTTP transport: `requests.post`, timeouts and the response text in error details. Replies are inputs, and an error response is a datatype variant without its message text.
- The 401 that app/core/dependencies.py raises when the guard returns None. It is one `if` outside the guard.
- FastAPI's checking of the response against `PlateProcessResponse`, e.g. a non-string alternative. The model returns `alternativas` as the comprehension builds it.
- Celery and the job queue (app/celery_app.py, app/services/plate_service.py). app/services/plate_service.py returns a task handle without `placa` or `results`. `PlatesEndpoint` takes the result of the plate service as an input (`ServiceOutcome`) rather than modelling that handle.
- Concurrency. The guard's scan-then-increment lets two concurrent calls both spend the last unit of budget. The model is single-threaded and states only the sequential invariant.
- SQLAlchemy sessions, commits and refreshes. One exception: a failed insert still consumes a sequence number in the database, and the model does not advance `nextId` then.
- The order of `query(...).all()` and `.first()`, which has no `ORDER BY`. The model scans rows in table order.
- bcrypt and random key generation. The hash, the verifier and the generated plain key are parameters. The model does not show that verify accepts what hash produced.
- A path that is a number. Python's `os.path.exists` and `open` accept a file descriptor. The model treats any non-string path as a failed lookup.
- Floating-point numbers in JSON. `Json.Num` holds integers only.
- Python's cross-type equality (`True == 1`). Plate comparisons use structural equality of `Json`.
- `file.content_type` being None. The route would raise; the model takes the content type as a string.
- The file read by `processar_placa` and `created_at`. The uploaded image only reaches the detector, whose reply is an input. The creation time is a parameter.
- Printing the "ATENÇÃO" warning when the job's write fails. Output is not modelled; `saved` records only whether the file was written.

## Findings

| source | as written | input that shows it | evidently intended | confidence | as-written member | corrected member |
|---|---|---|---|---|---|---|
| app/api/v1/endpoints/plates.py:42-47, 68-73 | the not-found HTTPException is raised inside the `try`, whose `except Exception` turns it into a 500 "unexpected error" | an `image/jpeg` upload whose result has `placa` None and `results` [] | a 404 "no plate detected" reaches the client | medium, not executed | PlatesEndpoint.HandleAsWritten | PlatesEndpoint.Handle |

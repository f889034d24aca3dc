# Applitools test-results handler, modelled in Dafny

`ApplitoolsTestResultsHandler` takes the results URL of one visual test and a
view key, and does three things:
- finds the server URL, batch id and session id in that URL;
- loads the session's JSON summary, and classifies every step as PASSED,
  FAILED, NEW or MISSING;
- downloads the diff images of failed steps, and the baseline and current
  images of every step that has one.

Every download is a *long request*:
- One `send_request` with one retry.
- Then the status decides what happens next:
  - 200 returns the response.
  - 202 polls the `location` URL with a growing, capped delay, then classifies
    the first non-200 answer again.
  - 201 sends one DELETE to `location` and returns that answer.
  - 410 and every other status raise.
- Every attempt bumps a per-handler counter, which goes into an id header. The
  view key is added to a copy of the URL.

The project has six modules:

- `Wrappers`: Option, Result, the handler's exceptions, and Python's `min`/`max`.
- `Decimal`: `str(n)` for naturals and the digit runs `\d+` matches.
  `Value(NatToString(n)) == n` is proved here.
- `SessionUrl`: `_get_server_url`, `_get_batch_id`, `_get_session_id` and the
  URL `get_test_json` builds. These are proved to invert composition: a
  well-formed results URL parses back into its parts, and a URL that parses is
  composed of what it returned.
- `StepResults`:
  - the `calculate_step_results` rule and its loop;
  - `get_image_id`;
  - the `(url, file)` downloads each `download_*` loop makes, in order
    (`Selected`, `DiffPlan`, `ImagePlan`).
- `LongRequest`: `send_request`, `long_request_loop`,
  `long_request_check_status` and `send_long_request`, as functions over an
  explicit state `Net`. `Net` holds the counter, the transport's outcomes still
  to come, the log of dispatched requests and the log of sleeps. The retry
  count, the delay schedule, the status dispatch and increasing request ids
  are proved about these functions.
- `ResultsHandler`: the handler as a class, and the request dict as a class.
  - Their fields are updated in place.
  - `send_request`, the poll loop and the recursion of
    `long_request_check_status` run as `while` loops.
  - Each method is proved to leave exactly the state the `LongRequest` and
    `StepResults` functions compute.
  - Lemmas state which files the download loops write: only the steps' own
    files, no file twice, and every selected file when nothing raised.

The transport is a script of outcomes: `NoResponse` stands for any exception
from `requests`, `Delivered(response)` for an answer. The formatted date is a
value given to the handler, and `uuid4` is a function of the attempt number.
The decoded summary is also a given value. Sleeps are recorded as durations.

Two behaviours of the code are easy to misread
(ApplitoolsTestResultHandler.py:229-231 and 204-208):
- The poll loop sends again while the answer is 200, and returns the first
  answer that is not 200. It does not stop on a 200.
- Each 202 starts a new poll loop from the initial delay 2. So 202 → 202 sleeps
  3 and then 3 (`AcceptedTwiceRestartsDelay`).

## Model

| member | source | states |
|---|---|---|
| Decimal.NatToString | ApplitoolsTestResultHandler.py:154 | `str(counter)` is a non-empty run of decimal digits, with a leading 0 only for 0 |
| Decimal.ValueOfNatToString | ApplitoolsTestResultHandler.py:154 | reading the digits of `str(n)` back gives n |
| Decimal.NatToStringInjective | ApplitoolsTestResultHandler.py:154 | distinct counter values give distinct strings |
| Decimal.LeadingDigits | ApplitoolsTestResultHandler.py:31-36 | the greedy `\d+` run: a prefix of the input, all digits, and followed by no further digit |
| Decimal.LeadingDigitsOfDigitsThen | ApplitoolsTestResultHandler.py:31-36 | a digit string followed by a non-digit is exactly the run `\d+` takes |
| Decimal.NumberedNameInjective | ApplitoolsTestResultHandler.py:77-79 | `prefix + str(m) + suffix` determines m |
| SessionUrl.FindFrom | ApplitoolsTestResultHandler.py:39 | `str.find` from a position: the first occurrence at or after it, or none at all |
| SessionUrl.Find | ApplitoolsTestResultHandler.py:39 | `str.find`: the first occurrence of the pattern, or none anywhere |
| SessionUrl.ServerUrl | ApplitoolsTestResultHandler.py:38-39 | the server URL is a prefix of the results URL; ServerOfComposed states which prefix |
| SessionUrl.BatchId | ApplitoolsTestResultHandler.py:34-36 | the batch id is a non-empty digit run, or the lookup fails with NoMatch (the `[0]` on an empty list) |
| SessionUrl.SessionId | ApplitoolsTestResultHandler.py:30-32 | the session id is a non-empty digit run, or the lookup fails with NoMatch |
| SessionUrl.SessionMatchImpliesBatchMatch | ApplitoolsTestResultHandler.py:30-36 | whenever the session pattern matches, the batch pattern matches too |
| SessionUrl.ParseFailsOnlyOnSession | ApplitoolsTestResultHandler.py:44-46 | the constructor's three lookups fail exactly when the session lookup fails |
| SessionUrl.ServerOfComposed | ApplitoolsTestResultHandler.py:38-39 | the server URL of `server + "/app/batches" + t` is `server` when the marker does not start inside `server` |
| SessionUrl.IdsAfterHead | ApplitoolsTestResultHandler.py:30-36 | after `server/app/batches/`, the batch is the first digit run and the session the run after the next `/` |
| SessionUrl.ParseComposed | ApplitoolsTestResultHandler.py:30-46 | a URL composed of server, batch and session digit runs, and any tail `.*$` accepts, parses into exactly those three parts |
| SessionUrl.SessionIdParts | ApplitoolsTestResultHandler.py:30-36 | a matching session lookup has read the head, the batch digits, `/`, the session digits and an accepted tail |
| SessionUrl.ParseDecomposes | ApplitoolsTestResultHandler.py:30-46 | conversely, a URL that parses is the composition of the parts returned, followed by an accepted tail, and no marker starts inside its server part; with ParseComposed this is an if-and-only-if |
| SessionUrl.NoMarkerNoMatch | ApplitoolsTestResultHandler.py:38-46 | a URL without `/app/batches` is refused with NoMatch |
| SessionUrl.ParseReference | ApplitoolsTestResultHandler.py:44-46 | the constructor's lookups fail only with NoMatch; on success the server is a prefix of the URL and both ids are non-empty digit runs |
| SessionUrl.AsciiOnly | ApplitoolsTestResultHandler.py:130 | `encode('ascii', 'ignore')` keeps only ASCII characters and never lengthens the string |
| SessionUrl.AsciiOnlyAppend | ApplitoolsTestResultHandler.py:130 | the ASCII filter works piece by piece over a concatenation |
| SessionUrl.AsciiOnlyKeepsAscii | ApplitoolsTestResultHandler.py:130 | an all-ASCII string goes through the filter unchanged |
| SessionUrl.TestJsonUrl | ApplitoolsTestResultHandler.py:127-130 | the bytes handed to requests.get are all ASCII, and no longer than the pieces joined |
| SessionUrl.TestJsonUrlParts | ApplitoolsTestResultHandler.py:127-130 | the summary URL is `server/api/sessions/batches/{batch}/{session}/?apiKey={key}&format=json`; only the server and the key can lose characters to the encoding |
| StepResults.StepStatus | ApplitoolsTestResultHandler.py:61-69 | the rule for one index, in both directions: a null actual entry is MISSING (checked first), else a null expected entry is NEW, else isMatching gives PASSED or FAILED; indexing past either list raises IndexError |
| StepResults.StepResults | ApplitoolsTestResultHandler.py:56-70 | the only exception the whole call can raise is IndexError |
| StepResults.StepResultsByIndex | ApplitoolsTestResultHandler.py:56-70 | the call raises exactly when some index below `max(len(expected), len(actual))` raises; otherwise it gives one status per index, each by the rule |
| StepResults.CalculateStepResults | ApplitoolsTestResultHandler.py:56-70 | the loop returns what StepResults states, exception included |
| StepResults.GetImageId | ApplitoolsTestResultHandler.py:117-125 | a step past the end of the list raises IndexError; a null entry or image gives None; otherwise the entry's own image id |
| StepResults.StepPathInjective | ApplitoolsTestResultHandler.py:79-104 | different steps get different `*_step_{i+1}.jpg` files |
| StepResults.SessionDir | ApplitoolsTestResultHandler.py:111-112 | prepare_path's directory lies under the given path |
| StepResults.SessionDirDistinct | ApplitoolsTestResultHandler.py:111-112 | sessions with different batch or session ids get different directories under the same path |
| StepResults.SelectedExactly | ApplitoolsTestResultHandler.py:75-105 | a per-step download loop fetches each step with a URL into its own file, fetches nothing else, and never writes a file twice |
| StepResults.SelectedSkips | ApplitoolsTestResultHandler.py:76-82 | a step without a URL gets no file |
| StepResults.DiffUrls | ApplitoolsTestResultHandler.py:75-78 | one entry per step status |
| StepResults.ImageUrls | ApplitoolsTestResultHandler.py:90-93 | one entry per step entry |
| StepResults.ImageUrlPresent | ApplitoolsTestResultHandler.py:91-93 | a step has an image URL exactly when it has an image id |
| StepResults.DiffPlanSelectsFailed | ApplitoolsTestResultHandler.py:72-82 | `download_diffs` fetches `.../steps/{i+1}/diff` into `diff_step_{i+1}.jpg` for every FAILED step, and writes no file for any other step |
| StepResults.ImagePlanSelectsPresent | ApplitoolsTestResultHandler.py:88-105 | `download_*_images` fetch `/api/images/{id}` for every step with an image id, and write no file for the others |
| StepResults.DiffPlan | ApplitoolsTestResultHandler.py:72-82 | download_diffs raises exactly when calculate_step_results does, and then with IndexError and before any download |
| StepResults.ImagePlan | ApplitoolsTestResultHandler.py:88-105 | download_*_images raises exactly when test_results.steps is larger than the list of entries, and then with IndexError |
| LongRequest.CreateRequest | ApplitoolsTestResultHandler.py:139-150 | the url and request type are set as given |
| LongRequest.CreateRequestHeaders | ApplitoolsTestResultHandler.py:143-147 | the headers become exactly `Eyes-Expect: 202+location` and `Eyes-Date: date` |
| LongRequest.WithApiKeyKeepsUrl | ApplitoolsTestResultHandler.py:159 | `WithApiKey`: the dispatched URL is the stored URL, unchanged, followed by `?apiKey=` and the key |
| LongRequest.StampKeepsHeaders | ApplitoolsTestResultHandler.py:161 | `Stamp`: writing the id header sets it to the id of this attempt, adds no other header, and leaves the url, the type and every other header as they were |
| LongRequest.Send | ApplitoolsTestResultHandler.py:152-194 | send_request never lengthens the list of transport outcomes still to come, and returning a response uses up at least one (SendAdvances states that they are used from the front) |
| LongRequest.Poll | ApplitoolsTestResultHandler.py:222-231 | a response returned by the poll loop is never a 200 |
| LongRequest.CheckStatus | ApplitoolsTestResultHandler.py:196-220 | the status dispatch never lengthens the list of transport outcomes still to come (CheckAdvances states that they are used from the front) |
| LongRequest.SendLong | ApplitoolsTestResultHandler.py:134-137 | send_long_request never lengthens the list of transport outcomes still to come (SendLongAdvances states that they are used from the front) |
| LongRequest.AttemptFacts | ApplitoolsTestResultHandler.py:163-186 | `Attempt`, one pass through the try block, leaves the counter and sleeps alone; an unknown request type raises and sends nothing; otherwise the next outcome is used, one dispatch is logged, and the attempt returns exactly when the outcome is a response |
| LongRequest.FirstAttemptCounts | ApplitoolsTestResultHandler.py:153 | each attempt increments the counter by exactly 1 and does not sleep |
| LongRequest.RestPauses | ApplitoolsTestResultHandler.py:190-193 | the step before a retry sleeps 500 seconds exactly when delay_before_retry is set |
| LongRequest.SendAdvances | ApplitoolsTestResultHandler.py:152-194 | send_request never lowers the counter, uses outcomes from the front with one dispatch each, and only appends to the logs |
| LongRequest.SendCounts | ApplitoolsTestResultHandler.py:152-194 | send_request makes between 1 and retry + 1 counted attempts |
| LongRequest.SendSleeps | ApplitoolsTestResultHandler.py:189-193 | the sleeps are exactly one 500 per attempt after the first when delay_before_retry is set, and none otherwise |
| LongRequest.SendDispatches | ApplitoolsTestResultHandler.py:156-161 | every dispatch has the stored method and the stored URL plus `?apiKey=`; the stored URL and method are left unchanged |
| LongRequest.SendAllAttemptsFail | ApplitoolsTestResultHandler.py:187-194 | with retry = r, transport failures on every attempt give exactly r + 1 dispatched attempts, r pauses if delay_before_retry is set, then the exception |
| LongRequest.SendReturnsFirstResponse | ApplitoolsTestResultHandler.py:163-193 | after j failures (j ≤ retry), the (j+1)-th answer is returned and nothing after it is used |
| LongRequest.SendInvalidMethod | ApplitoolsTestResultHandler.py:183-194 | an unknown request type raises inside the try, so it is retried: retry + 1 counted attempts, nothing dispatched, then the exception |
| LongRequest.SendWithoutUrl | ApplitoolsTestResultHandler.py:153-159 | a request without a url raises after the counter is bumped, before the try, and is not retried |
| LongRequest.RequestIdNumber | ApplitoolsTestResultHandler.py:154 | `RequestId`: the id `str(counter) + "--" + uuid` starts with exactly the digits of the counter, which read back as the counter |
| LongRequest.DistinctRequestIds | ApplitoolsTestResultHandler.py:153-161 | while the ids increase, no two dispatched requests carry the same id header |
| LongRequest.SendKeepsIds | ApplitoolsTestResultHandler.py:153-161 | send_request keeps the ids increasing: each dispatch is numbered above all earlier ones and no higher than the counter |
| LongRequest.Schedule | ApplitoolsTestResultHandler.py:222-225 | n polls sleep n times |
| LongRequest.NextDelay | ApplitoolsTestResultHandler.py:223 | the next poll delay never exceeds 10; from 0..10 it never shrinks; and from 2 up to 9 it strictly grows |
| LongRequest.ScheduleBounds | ApplitoolsTestResultHandler.py:223 | from a delay in 0..10, the poll delays never decrease, never exceed 10, and never fall below the starting delay |
| LongRequest.IterateAtCap | ApplitoolsTestResultHandler.py:223 | once at 10, the delay stays at 10 |
| LongRequest.IterateFromStart | ApplitoolsTestResultHandler.py:49-53 | from the initial 2, the delay after m polls is 3, 4, 6, 9, then 10 |
| LongRequest.ScheduleFromStart | ApplitoolsTestResultHandler.py:49-53 | from the initial 2, the polls sleep 3, 4, 6, 9 and then 10 every time |
| LongRequest.FirstPollSleep | ApplitoolsTestResultHandler.py:49-53 | a 202's first poll sleeps 3 seconds, not 2 |
| LongRequest.PollAdvances | ApplitoolsTestResultHandler.py:222-231 | the poll loop only moves the state forward |
| LongRequest.PollSendSleeps | ApplitoolsTestResultHandler.py:223-227 | one round sleeps the grown delay once; its send_request sleeps no more |
| LongRequest.PollSleeps | ApplitoolsTestResultHandler.py:222-231 | the loop's sleeps are exactly the delay schedule from the given delay, one per round, and nothing else |
| LongRequest.PollDispatches | ApplitoolsTestResultHandler.py:227-231 | every round re-sends the same stored request to the same url with the key added |
| LongRequest.PollKeepsIds | ApplitoolsTestResultHandler.py:222-231 | the poll loop keeps the ids increasing |
| LongRequest.PollReturnsFirstNon200 | ApplitoolsTestResultHandler.py:222-231 | with answers 200, ..., 200, s (s ≠ 200), the loop makes one round per answer, returns s unchanged, and sleeps the schedule |
| LongRequest.CheckStatusImmediate | ApplitoolsTestResultHandler.py:196-220 | 200 returns the very response; 410 raises Gone; every other status outside 200, 201, 202 raises; none of these makes a request |
| LongRequest.CheckAdvances | ApplitoolsTestResultHandler.py:196-220 | the status dispatch only moves the state forward |
| LongRequest.CheckKeepsIds | ApplitoolsTestResultHandler.py:196-220 | the status dispatch keeps the ids increasing |
| LongRequest.CheckStatusOutcome | ApplitoolsTestResultHandler.py:196-220 | a response the dispatch returns is a 200, or the answer to a DELETE that was its last request |
| LongRequest.CheckStatusCreated | ApplitoolsTestResultHandler.py:210-214 | a 201 whose DELETE is answered at its first attempt sends exactly one DELETE, to its location with the key added, and returns that answer whatever its status |
| LongRequest.SendLongAdvances | ApplitoolsTestResultHandler.py:134-137 | send_long_request only moves the state forward |
| LongRequest.SendLongKeepsIds | ApplitoolsTestResultHandler.py:134-137 | send_long_request keeps the ids increasing |
| LongRequest.SendLongOutcome | ApplitoolsTestResultHandler.py:134-137 | what send_long_request returns is a 200, or the answer to its last request, a DELETE |
| LongRequest.AcceptedThenCreated | ApplitoolsTestResultHandler.py:204-214 | a 202 whose poll gets 201: one GET of the first location after 3 seconds, one DELETE of the second location, and the DELETE's answer returned |
| LongRequest.AcceptedTwiceRestartsDelay | ApplitoolsTestResultHandler.py:204-218 | a 202 whose poll gets 202 starts a new loop from delay 2 (sleeps 3, 3), and a 410 then raises Gone |
| ResultsHandler.Request.constructor | ApplitoolsTestResultHandler.py:140-141 | a new empty request dict |
| ResultsHandler.Handler.constructor | ApplitoolsTestResultHandler.py:41-54 | the handler keeps its inputs; the counter starts at 0; nothing is sent, slept or written; the handler invariant holds |
| ResultsHandler.Open | ApplitoolsTestResultHandler.py:41-47 | construction fails with NoMatch exactly when the ids cannot be read from the URL; otherwise a fresh handler that holds the given test results, view key, summary, date and uuid source, with the parsed ids, the summary URL, a zero counter and empty logs |
| ResultsHandler.Handler.CreateRequest | ApplitoolsTestResultHandler.py:139-150 | a passed-in dict is changed in place and returned; otherwise a new one; its contents are those of `LongRequest.CreateRequest` |
| ResultsHandler.Handler.Transmit | ApplitoolsTestResultHandler.py:163-186 | the dispatch in the try block changes the state as `Attempt` states |
| ResultsHandler.Handler.SendRequest | ApplitoolsTestResultHandler.py:152-194 | the retry loop leaves the counter, logs, the request's headers and the result exactly as `Send` computes them |
| ResultsHandler.Handler.LongRequestLoop | ApplitoolsTestResultHandler.py:222-231 | the poll loop ends in the state and with the result `Poll` computes |
| ResultsHandler.Handler.LongRequestCheckStatus | ApplitoolsTestResultHandler.py:196-220 | the dispatch loop ends in the state and with the result `CheckStatus` computes |
| ResultsHandler.Handler.SendLongRequest | ApplitoolsTestResultHandler.py:134-137 | ends as `SendLong` computes, and keeps the handler invariant (ids increasing) |
| ResultsHandler.Handler.ImageFromUrlToFile | ApplitoolsTestResultHandler.py:107-109 | a long GET of the url; the file is written with the response only when the request did not raise |
| ResultsHandler.Handler.FetchSteps | ApplitoolsTestResultHandler.py:75-105 | the per-step download loop ends as the downloads `Selected` lists would, stopping at the first exception |
| ResultsHandler.Handler.DownloadDiffs | ApplitoolsTestResultHandler.py:72-82 | ends as `DiffPlan` computes: an IndexError from the statuses fetches nothing, otherwise the diffs of FAILED steps |
| ResultsHandler.Handler.DownloadStepImages | ApplitoolsTestResultHandler.py:88-105 | ends as `ImagePlan` computes: the present images of the first test_results.steps steps, then IndexError if the list is shorter |
| ResultsHandler.Handler.DownloadBaselineImages | ApplitoolsTestResultHandler.py:97-105 | the same over expectedAppOutput into `baseline_step_{i+1}.jpg` |
| ResultsHandler.Handler.DownloadCurrentImages | ApplitoolsTestResultHandler.py:88-95 | the same over actualAppOutput into `current_step_{i+1}.jpg` |
| ResultsHandler.Handler.DownloadImages | ApplitoolsTestResultHandler.py:84-86 | the baseline images, then the current ones unless the first part raised |
| ResultsHandler.RunFetchesStaysStopped | ApplitoolsTestResultHandler.py:80-105 | once a download has raised, no later download is made and nothing changes |
| ResultsHandler.RunFetchesSaves | ApplitoolsTestResultHandler.py:107-109 | `RunFetches`, image_from_url_to_file over the downloads in order: the files written are those of the first downloads, in order, one per download; all of them exactly when nothing raised |
| ResultsHandler.SavedStep | ApplitoolsTestResultHandler.py:75-105 | every file a step loop wrote is the numbered file of a step that has a URL |
| ResultsHandler.SavedOnce | ApplitoolsTestResultHandler.py:75-105 | a step loop writes no file twice |
| ResultsHandler.SavedAll | ApplitoolsTestResultHandler.py:75-105 | a step loop that raised nothing wrote the file of every step with a URL |
| ResultsHandler.DiffFilesOfFailedSteps | ApplitoolsTestResultHandler.py:72-82 | download_diffs writes diffs of FAILED steps only, each once, and of every FAILED step when nothing raised |
| ResultsHandler.ImageFilesOfPresentSteps | ApplitoolsTestResultHandler.py:88-105 | the image downloads write files for steps with an image id only, each once, and for all of them when nothing raised |
| ResultsHandler.DiffPlanUnreadable | ApplitoolsTestResultHandler.py:72-74 | when the statuses raise IndexError, download_diffs downloads nothing and raises it |

## Left out

- HTTP is not modelled. `requests.get/post/delete` become a script of
  outcomes, so a connection error is one outcome and a response another.
  Response bodies, streaming and timeouts are not represented.
- `Stopped(ScriptExhausted)` exists only in the model. It ends a run whose
  script has run out, and the code has no such case.
- `get_test_json` is not modelled as a network call. Its URL is modelled
  (`TestJsonUrl`), but the JSON it fetches and decodes is a given value
  (`TestJson`).
- JSON decoding is not modelled, and neither are missing keys. A decoded
  summary always has both step lists, and every non-null entry has
  `isMatching` and `image`. So the KeyError of an incomplete document cannot
  arise.
- The file I/O of `image_from_url_to_file` and `prepare_path` is not
  modelled:
  - no `open` and no `shutil.copyfileobj`; a written file is recorded as its
    path and the response it holds;
  - `prepare_path` is only the directory string (`SessionDir`), without
    `os.makedirs`, so the directory that download_diffs creates before an
    IndexError is not modelled.
- The download loops are restructured, not transcribed. The three loops of
  `download_diffs`, `download_current_images` and `download_baseline_images`
  run through one shared method, `FetchSteps`, over the URL list each one
  selects.
- `time.sleep` is recorded only as a duration in a ghost log. There is no
  clock and no concurrency.
- `print` diagnostics are left out.
- `formatdate` and `uuid4` are opaque values. The date is one string per
  handler, and the uuid a function of the attempt number.
- The float factor 1.5 is exact integer arithmetic. `floor(d * 1.5)` is
  `(d * 3) / 2`, which is floor division for every integer d.
- Identity tests (`is 200`, `is 'GET'`) are modelled as equality. Either way
  they lead to a response or to an exception. An interned string and a small int
  such as 200 compare the same. 410 lies outside CPython's small-int cache, so
  `status is 410` is normally False and the code reaches the `str + int` at
  line 220, which raises a TypeError. Either way a 410 raises and no further
  request is made, which is what the model's `Gone` states.
- The exception kinds are simplified:
  - A status outside 200, 201, 202 and 410 raises `UnknownStatus`. In the code,
    the message `str + int` at line 220 raises a TypeError instead.
  - A 410 raises `Gone`.
  - Only whether and where an exception happens is modelled, not its type or
    message.
- A response without a `location` header is modelled, not excluded. The model
  follows the code: the None url makes line 159 raise after the counter is
  bumped, before the try, with no retry (`UrlNotString`).
- Python's recursion limit is not modelled. `send_request` and
  `long_request_loop` recurse, and an endless run of 200s would eventually raise
  RecursionError. The model runs them as loops, bounded only by the script.
- `\d` matches only the ASCII digits 0-9; Python's `re` also accepts other
  Unicode digits.
- `re.escape(server_URL)` is modelled as a literal prefix match.
- DownloadExample.py is not part of this model. It drives a browser through the
  Eyes SDK and has no logic of its own.
- `default_timeout` and `reduced_timeout` are set but never read, so they
  appear only as constants.

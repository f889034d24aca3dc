/**
 * ApplitoolsTestResultsHandler itself: an object holding the ids parsed from
 * the results URL, the decoded summary, the attempt counter and the
 * transport, whose methods change that state step by step. Each method is
 * proved to end in the state the functions of LongRequest and StepResults
 * compute from the state it started in.
 */
module ResultsHandler {
  import opened Wrappers
  import opened Decimal
  import opened SessionUrl
  import opened StepResults
  import opened LongRequest

  /** The test_results object the handler is given: the results URL and the number of steps. */
  datatype TestResults = TestResults(url: string, steps: nat)

  /** A file image_from_url_to_file wrote: where, and which response's body went into it. */
  datatype SavedFile = SavedFile(path: string, content: Response)

  /** The end of a run of downloads: new state, files written, and the exception that stopped it, if any. */
  datatype Downloaded = Downloaded(net: Net, saved: seq<SavedFile>, failure: Option<Error>)

  /** send_long_request('GET', url) from a given state: the request image_from_url_to_file makes. */
  function LongGet(env: Env, net: Net, url: string): Run
  {
    SendLong(env, net, "GET", Some(url))
  }

  /**
   * image_from_url_to_file for each download in order: get(state, url) is the
   * long GET of the url, after which the file is written with the response. The
   * first exception stops the run; the files before it stay written.
   */
  function RunFetches(get: (Net, string) -> Run, net: Net, fetches: seq<Fetch>): Downloaded
    decreases |fetches|
  {
    if fetches == [] then Downloaded(net, [], None)
    else
      var d := RunFetches(get, net, fetches[..|fetches| - 1]);
      if d.failure.Some? then d
      else
        var f := fetches[|fetches| - 1];
        Fetched(d, get(d.net, f.url), f.path)
  }

  /** The state after one more image_from_url_to_file: its exception is kept, or the file it wrote. */
  function Fetched(d: Downloaded, run: Run, path: string): Downloaded
  {
    match run.result
    case Err(e) => Downloaded(run.net, d.saved, Some(e))
    case Ok(resp) => Downloaded(run.net, d.saved + [SavedFile(path, resp)], None)
  }

  /** The downloads of a plan, then the plan's own exception if they all succeed. */
  function RunPlan(get: (Net, string) -> Run, net: Net, plan: Plan): Downloaded
  {
    var d := RunFetches(get, net, plan.fetches);
    if d.failure.Some? then d else d.(failure := plan.failure)
  }

  /** The request dict: create_request fills it in place and send_request writes the id header into it. */
  class Request {
    var headers: map<string, string>
    var url: Option<string>
    var requestType: string

    /** An empty request, with no headers and no url, that CreateRequest then fills in. */
    constructor ()
      ensures headers == map[] && url == None && requestType == ""
    {
      headers := map[];
      url := None;
      requestType := "";
    }

    function Data(): RequestData
      reads this
    {
      RequestData(headers, url, requestType)
    }
  }

  class Handler {
    const viewKey: string
    const testResults: TestResults
    /** server_URL, batch_ID and session_ID, parsed from testResults.url. */
    const reference: Reference
    /** The URL get_test_json fetched the summary from. */
    const testJsonUrl: string
    /** test_JSON: the decoded summary. */
    const testJson: TestJson
    /** What formatdate returns; the clock is not modelled. */
    const date: string
    /** What uuid4 returns for the attempt with each counter value. */
    const token: nat -> string
    /** send_long_request('GET', ·) of this handler, as a function of the state it starts in. */
    ghost const fetch: (Net, string) -> Run

    var counter: nat
    /** The outcomes the transport will give to the next requests, in order. */
    var script: seq<Outcome>
    /** Every request handed to the transport, in order. */
    var sent: seq<Dispatch>
    /** Every time.sleep, in seconds. */
    ghost var sleeps: seq<int>
    /** Every file written by image_from_url_to_file, in order. */
    var files: seq<SavedFile>

    function Context(): Env
    {
      Env(viewKey, date, token)
    }

    ghost function Net(): Net
      reads this
    {
      LongRequest.Net(counter, script, sent, sleeps)
    }

    /**
     * The handler's invariant: the ids of all dispatched requests increase with
     * the counter, and fetch is this handler's long GET.
     */
    ghost predicate Valid()
      reads this
    {
      && IdsIncreasing(Net())
      && forall net, url {:trigger LongGet(Context(), net, url)} :: fetch(net, url) == LongGet(Context(), net, url)
    }

    /** __init__ once the ids are parsed: the counter starts at 0 and nothing has been sent, slept or written. */
    constructor (testResults: TestResults, viewKey: string, reference: Reference, testJson: TestJson,
                 date: string, token: nat -> string, script: seq<Outcome>)
      ensures this.testResults == testResults && this.viewKey == viewKey && this.reference == reference
      ensures this.testJsonUrl == TestJsonUrl(reference, viewKey) && this.testJson == testJson
      ensures this.date == date && this.token == token
      ensures counter == 0 && this.script == script && sent == [] && sleeps == [] && files == []
      ensures Valid()
    {
      this.testResults := testResults;
      this.viewKey := viewKey;
      this.reference := reference;
      this.testJsonUrl := TestJsonUrl(reference, viewKey);
      this.testJson := testJson;
      this.date := date;
      this.token := token;
      fetch := (net: Net, url: string) => LongGet(Env(viewKey, date, token), net, url);
      counter := 0;
      this.script := script;
      sent := [];
      sleeps := [];
      files := [];
    }

    /** create_request: fills the given dict in place and returns it, or a new one when none is given. */
    method CreateRequest(requestType: string, url: Option<string>, request: Request?) returns (r: Request)
      modifies request
      ensures request != null ==> r == request
      ensures request == null ==> fresh(r)
      ensures r.Data() == LongRequest.CreateRequest(date, requestType, url)
    {
      if request == null {
        r := new Request();
      } else {
        r := request;
      }
      r.headers := map["Eyes-Expect" := "202+location", "Eyes-Date" := date];
      r.url := url;
      r.requestType := requestType;
    }

    /** requests.get / post / delete: hand the request to the transport and take its next outcome. */
    method Transmit(requestType: string, url: string, headers: map<string, string>) returns (outcome: AttemptOutcome)
      modifies this
      ensures Attempt(old(Net()), requestType, url, headers) == Attempted(Net(), outcome)
      ensures files == old(files)
    {
      if !(requestType == "GET" || requestType == "POST" || requestType == "DELETE") {
        return Raised(InvalidRequestType);
      }
      if script == [] {
        return Stopped(ScriptExhausted);
      }
      var next := script[0];
      script := script[1..];
      sent := sent + [Dispatch(requestType, url, headers)];
      match next
      case NoResponse => return Raised(TransportFailure);
      case Delivered(response) => return Returned(response);
    }

    /** send_request(request, retry, delay_before_retry), its recursion on retry - 1 run as a loop. */
    method SendRequest(request: Request, retry: int, delayBeforeRetry: bool) returns (r: Result<Response>)
      modifies this, request
      ensures var s := Send(Context(), old(Net()), old(request.Data()), retry, delayBeforeRetry);
        Net() == s.net && request.Data() == s.request && r == s.result
      ensures files == old(files)
    {
      ghost var goal := Send(Context(), Net(), request.Data(), retry, delayBeforeRetry);
      var retriesLeft := retry;
      while true
        invariant Send(Context(), Net(), request.Data(), retriesLeft, delayBeforeRetry) == goal
        invariant files == old(files)
        decreases if retriesLeft < 0 then 0 else retriesLeft
      {
        ghost var net0, req0 := Net(), request.Data();
        counter := counter + 1;
        if request.url.None? {
          SendWithoutUrl(Context(), net0, req0, retriesLeft, delayBeforeRetry);
          return Err(UrlNotString);
        }
        var url := request.url.value + "?apiKey=" + viewKey;
        request.headers := request.headers[RequestIdHeader := NatToString(counter) + "--" + token(counter)];
        ghost var stamped := Stamp(Context(), net0.counter + 1, req0);
        assert request.Data() == stamped;
        ghost var a := FirstAttempt(Context(), net0, req0);
        assert Net() == net0.(counter := counter) && url == WithApiKey(req0.url.value, viewKey);
        assert a == Attempt(Net(), request.requestType, url, request.headers);
        var outcome := Transmit(request.requestType, url, request.headers);
        assert a == Attempted(Net(), outcome);
        if outcome.Raised? && retriesLeft > 0 {
          SendRetryStep(Context(), net0, req0, retriesLeft, delayBeforeRetry, goal);
          if delayBeforeRetry {
            sleeps := sleeps + [RetryRequestInterval];
          }
          assert Net() == Rest(a.net, delayBeforeRetry);
          retriesLeft := retriesLeft - 1;
        } else {
          SendStops(Context(), net0, req0, retriesLeft, delayBeforeRetry);
          r := match outcome
            case Returned(response) => Ok(response)
            case Stopped(e) => Err(e)
            case Raised(cause) => Err(SendFailed(cause));
          return;
        }
      }
    }

    /**
     * long_request_loop(request, delay): grow the delay, sleep that long and
     * send the request again; repeat while the answer is 200, and return the
     * first other answer.
     */
    method LongRequestLoop(request: Request, delay: int) returns (r: Result<Response>)
      modifies this, request
      ensures var p := Poll(Context(), old(Net()), old(request.Data()), delay);
        Net() == p.net && request.Data() == p.request && r == p.result
      ensures files == old(files)
    {
      var d := delay;
      while true
        invariant Poll(Context(), Net(), request.Data(), d) == Poll(Context(), old(Net()), old(request.Data()), delay)
        invariant files == old(files)
        decreases |script|
      {
        ghost var net0, req0, d0 := Net(), request.Data(), d;
        d := NextDelay(d);
        sleeps := sleeps + [d];
        r := SendRequest(request, 1, false);
        if r.Err? || r.value.status != 200 {
          PollStops(Context(), net0, req0, d0);
          return;
        }
        PollContinues(Context(), net0, req0, d0);
      }
    }

    /**
     * long_request_check_status(response), its recursion after a 202 run as a
     * loop: 200 returns the response, 202 polls the location and classifies
     * the answer again, 201 deletes the location and returns that answer, and
     * every other status raises.
     */
    method LongRequestCheckStatus(response: Response) returns (r: Result<Response>)
      modifies this
      ensures var c := CheckStatus(Context(), old(Net()), response); Net() == c.net && r == c.result
      ensures files == old(files)
    {
      var current := response;
      while true
        invariant CheckStatus(Context(), Net(), current) == CheckStatus(Context(), old(Net()), response)
        invariant files == old(files)
        decreases |script|
      {
        if current.status == 200 {
          return Ok(current);
        } else if current.status == 202 {
          ghost var net0 := Net();
          CheckAccepted(Context(), net0, current);
          var request := CreateRequest("GET", current.location, null);
          var polled := LongRequestLoop(request, LongRequestDelay);
          if polled.Err? {
            return polled;
          }
          current := polled.value;
        } else if current.status == 201 {
          var request := CreateRequest("DELETE", current.location, null);
          r := SendRequest(request, 1, false);
          return;
        } else if current.status == 410 {
          return Err(Gone);
        } else {
          return Err(UnknownStatus(current.status));
        }
      }
    }

    /** send_long_request(request_type, url): a fresh request, one send with the default retry, then the status dispatch. */
    method SendLongRequest(requestType: string, url: Option<string>) returns (r: Result<Response>)
      requires Valid()
      modifies this
      ensures var run := SendLong(Context(), old(Net()), requestType, url); Net() == run.net && r == run.result
      ensures files == old(files)
      ensures Valid()
    {
      ghost var net0 := Net();
      var request := CreateRequest(requestType, url, null);
      r := SendRequest(request, 1, false);
      if r.Ok? {
        r := LongRequestCheckStatus(r.value);
      }
      SendLongKeepsIds(Context(), net0, requestType, url);
    }

    /** image_from_url_to_file(url, path): a long GET of the url; the file is written only once the response is there. */
    method ImageFromUrlToFile(url: string, path: string) returns (failure: Option<Error>)
      requires Valid()
      modifies this
      ensures var run := fetch(old(Net()), url);
        && Net() == run.net
        && (run.result.Err? ==> failure == Some(run.result.error) && files == old(files))
        && (run.result.Ok? ==> failure == None && files == old(files) + [SavedFile(path, run.result.value)])
      ensures Valid()
    {
      assert fetch(Net(), url) == LongGet(Context(), Net(), url);
      var r := SendLongRequest("GET", Some(url));
      if r.Err? {
        return Some(r.error);
      }
      files := files + [SavedFile(path, r.value)];
      return None;
    }

    /**
     * The loop the download_* operations share: for each of the first n steps,
     * when the step has a URL, image_from_url_to_file of it into the step's
     * numbered file; the first exception ends the loop.
     */
    method FetchSteps(dir: string, kind: string, urls: seq<Option<string>>, n: nat) returns (failure: Option<Error>)
      requires n <= |urls|
      requires Valid()
      modifies this
      ensures var d := RunFetches(fetch, old(Net()), Selected(dir, kind, urls, n));
        Net() == d.net && files == old(files) + d.saved && failure == d.failure
      ensures Valid()
    {
      ghost var done := RunFetches(fetch, old(Net()), []);
      for i := 0 to n
        invariant done == RunFetches(fetch, old(Net()), Selected(dir, kind, urls, i))
        invariant done.failure.None? && Net() == done.net && files == old(files) + done.saved
        invariant Valid()
      {
        FetchStep(fetch, old(Net()), dir, kind, urls, i, done);
        if urls[i].Some? {
          var url, file := urls[i].value, StepPath(dir, kind, i);
          ghost var run := fetch(Net(), url);
          failure := ImageFromUrlToFile(url, file);
          done := Fetched(done, run, file);
          if failure.Some? {
            StepsStayStopped(fetch, old(Net()), dir, kind, urls, i + 1, n);
            return;
          }
        }
      }
      failure := None;
    }

    /**
     * download_diffs(path): the statuses first (an IndexError there fetches
     * nothing), then the diff of each FAILED step into diff_step_{i+1}.jpg.
     */
    method DownloadDiffs(path: string) returns (failure: Option<Error>)
      requires Valid()
      modifies this
      ensures var d := RunPlan(fetch, old(Net()), DiffPlan(reference, testJson, path));
        Net() == d.net && files == old(files) + d.saved && failure == d.failure
      ensures Valid()
    {
      var dir := SessionDir(path, reference);
      var stepStates := CalculateStepResults(testJson);
      if stepStates.Err? {
        return Some(stepStates.error);
      }
      var st := stepStates.value;
      failure := FetchSteps(dir, "diff", DiffUrls(reference, st), |st|);
    }

    /**
     * download_baseline_images / download_current_images: for each of
     * test_results.steps steps, the image of that step, when it has one, into
     * {kind}_step_{i+1}.jpg; the first step past the end of the list raises
     * IndexError once the steps before it are fetched.
     */
    method DownloadStepImages(t: ImageType, path: string) returns (failure: Option<Error>)
      requires Valid()
      modifies this
      ensures var d := RunPlan(fetch, old(Net()), ImagePlan(reference, testJson, t, testResults.steps, path));
        Net() == d.net && files == old(files) + d.saved && failure == d.failure
      ensures Valid()
    {
      var outputs := Outputs(testJson, t);
      failure := FetchSteps(SessionDir(path, reference), KindName(t), ImageUrls(reference.server, outputs),
                            Min(testResults.steps, |outputs|));
      if failure.None? && testResults.steps > |outputs| {
        failure := Some(IndexOutOfRange);
      }
    }

    /** download_baseline_images(path). */
    method DownloadBaselineImages(path: string) returns (failure: Option<Error>)
      requires Valid()
      modifies this
      ensures var d := RunPlan(fetch, old(Net()), ImagePlan(reference, testJson, ExpectedAppOutput, testResults.steps, path));
        Net() == d.net && files == old(files) + d.saved && failure == d.failure
      ensures Valid()
    {
      failure := DownloadStepImages(ExpectedAppOutput, path);
    }

    /** download_current_images(path). */
    method DownloadCurrentImages(path: string) returns (failure: Option<Error>)
      requires Valid()
      modifies this
      ensures var d := RunPlan(fetch, old(Net()), ImagePlan(reference, testJson, ActualAppOutput, testResults.steps, path));
        Net() == d.net && files == old(files) + d.saved && failure == d.failure
      ensures Valid()
    {
      failure := DownloadStepImages(ActualAppOutput, path);
    }

    /** download_images(path): the baseline images, then, unless that raised, the current ones. */
    method DownloadImages(path: string) returns (failure: Option<Error>)
      requires Valid()
      modifies this
      ensures var b := RunPlan(fetch, old(Net()), ImagePlan(reference, testJson, ExpectedAppOutput, testResults.steps, path));
        var c := RunPlan(fetch, b.net, ImagePlan(reference, testJson, ActualAppOutput, testResults.steps, path));
        if b.failure.Some? then Net() == b.net && files == old(files) + b.saved && failure == b.failure
        else Net() == c.net && files == old(files) + b.saved + c.saved && failure == c.failure
      ensures Valid()
    {
      failure := DownloadBaselineImages(path);
      if failure.None? {
        failure := DownloadCurrentImages(path);
      }
    }
  }

  /**
   * __init__(test_results, view_key): the three ids are read from the results
   * URL (a URL they cannot be read from raises), and the summary is the one
   * fetched from TestJsonUrl.
   */
  method Open(testResults: TestResults, viewKey: string, testJson: TestJson, date: string,
              token: nat -> string, script: seq<Outcome>) returns (r: Result<Handler>)
    ensures r.Err? <==> ParseReference(testResults.url).Err?
    ensures r.Err? ==> r.error == NoMatch
    ensures r.Ok? ==> && fresh(r.value)
                      && r.value.reference == ParseReference(testResults.url).value
                      && r.value.testJsonUrl == TestJsonUrl(r.value.reference, viewKey)
                      && r.value.testResults == testResults && r.value.date == date && r.value.token == token
                      && r.value.testJson == testJson && r.value.viewKey == viewKey
                      && r.value.counter == 0 && r.value.script == script
                      && r.value.sent == [] && r.value.sleeps == [] && r.value.files == []
                      && r.value.Valid()
  {
    var reference := ParseReference(testResults.url);
    if reference.Err? {
      return Err(reference.error);
    }
    var h := new Handler(testResults, viewKey, reference.value, testJson, date, token, script);
    return Ok(h);
  }

  /** One more download after a run that has not failed: the long GET, then the file if it succeeded. */
  lemma RunFetchesStep(get: (Net, string) -> Run, net: Net, fetches: seq<Fetch>, f: Fetch)
    requires RunFetches(get, net, fetches).failure.None?
    ensures var d := RunFetches(get, net, fetches);
      RunFetches(get, net, fetches + [f]) == Fetched(d, get(d.net, f.url), f.path)
  {
    assert (fetches + [f])[..|fetches|] == fetches;
  }

  /** The downloads of the first i + 1 steps: those of the first i, then step i's if it has a URL. */
  lemma SelectedNext(dir: string, kind: string, urls: seq<Option<string>>, i: nat)
    requires i < |urls|
    ensures Selected(dir, kind, urls, i + 1)
      == Selected(dir, kind, urls, i) + if urls[i].Some? then [Fetch(urls[i].value, StepPath(dir, kind, i))] else []
  {
  }

  /**
   * One turn of the step loop after turns that raised nothing: a step without a
   * URL changes nothing, a step with one makes its download.
   */
  lemma FetchStep(get: (Net, string) -> Run, net: Net, dir: string, kind: string, urls: seq<Option<string>>, i: nat, done: Downloaded)
    requires i < |urls|
    requires done == RunFetches(get, net, Selected(dir, kind, urls, i)) && done.failure.None?
    ensures urls[i].None? ==> RunFetches(get, net, Selected(dir, kind, urls, i + 1)) == done
    ensures urls[i].Some? ==> RunFetches(get, net, Selected(dir, kind, urls, i + 1)) == Fetched(done, get(done.net, urls[i].value), StepPath(dir, kind, i))
  {
    SelectedNext(dir, kind, urls, i);
    if urls[i].Some? {
      RunFetchesStep(get, net, Selected(dir, kind, urls, i), Fetch(urls[i].value, StepPath(dir, kind, i)));
    } else {
      assert Selected(dir, kind, urls, i + 1) == Selected(dir, kind, urls, i);
    }
  }

  /** A download after one that raised is not made. */
  lemma RunFetchesStopped(get: (Net, string) -> Run, net: Net, fetches: seq<Fetch>, f: Fetch)
    requires RunFetches(get, net, fetches).failure.Some?
    ensures RunFetches(get, net, fetches + [f]) == RunFetches(get, net, fetches)
  {
    assert (fetches + [f])[..|fetches|] == fetches;
  }

  /** Once a download has raised, no later download is made. */
  lemma {:induction false} RunFetchesStaysStopped(get: (Net, string) -> Run, net: Net, fetches: seq<Fetch>, more: seq<Fetch>)
    requires RunFetches(get, net, fetches).failure.Some?
    ensures RunFetches(get, net, fetches + more) == RunFetches(get, net, fetches)
    decreases |more|
  {
    if more != [] {
      var init := more[..|more| - 1];
      RunFetchesStaysStopped(get, net, fetches, init);
      assert fetches + more == (fetches + init) + [more[|more| - 1]];
      RunFetchesStopped(get, net, fetches + init, more[|more| - 1]);
    } else {
      assert fetches + more == fetches;
    }
  }

  /** The downloads of the first m steps come first among those of the first n. */
  lemma {:induction false} SelectedPrefix(dir: string, kind: string, urls: seq<Option<string>>, m: nat, n: nat)
    requires m <= n <= |urls|
    ensures Selected(dir, kind, urls, m) <= Selected(dir, kind, urls, n)
    decreases n
  {
    if m < n {
      SelectedPrefix(dir, kind, urls, m, n - 1);
    }
  }

  /** A loop over steps that stops at a failing download leaves the state the whole plan would. */
  lemma StepsStayStopped(get: (Net, string) -> Run, net: Net, dir: string, kind: string, urls: seq<Option<string>>, m: nat, n: nat)
    requires m <= n <= |urls|
    requires RunFetches(get, net, Selected(dir, kind, urls, m)).failure.Some?
    ensures RunFetches(get, net, Selected(dir, kind, urls, n)) == RunFetches(get, net, Selected(dir, kind, urls, m))
  {
    var prefix, all := Selected(dir, kind, urls, m), Selected(dir, kind, urls, n);
    SelectedPrefix(dir, kind, urls, m, n);
    assert all == prefix + all[|prefix|..];
    RunFetchesStaysStopped(get, net, prefix, all[|prefix|..]);
  }

  /**
   * The files a run of downloads writes are those of its first downloads, in
   * order; all of them when nothing raised, and none past the one that raised.
   */
  lemma {:induction false} RunFetchesSaves(get: (Net, string) -> Run, net: Net, fetches: seq<Fetch>)
    ensures var d := RunFetches(get, net, fetches);
      && |d.saved| <= |fetches|
      && (forall i :: 0 <= i < |d.saved| ==> d.saved[i].path == fetches[i].path)
      && (d.failure.None? <==> |d.saved| == |fetches|)
    decreases |fetches|
  {
    if fetches != [] {
      RunFetchesSaves(get, net, fetches[..|fetches| - 1]);
    }
  }

  /** Each file a step loop writes is the numbered file of a step that has a URL. */
  lemma SavedStep(get: (Net, string) -> Run, net: Net, dir: string, kind: string, urls: seq<Option<string>>, n: nat, k: nat)
    returns (i: nat)
    requires n <= |urls|
    requires k < |RunFetches(get, net, Selected(dir, kind, urls, n)).saved|
    ensures i < n && urls[i].Some?
    ensures RunFetches(get, net, Selected(dir, kind, urls, n)).saved[k].path == StepPath(dir, kind, i)
  {
    var fetches := Selected(dir, kind, urls, n);
    RunFetchesSaves(get, net, fetches);
    SelectedExactly(dir, kind, urls, n);
    assert fetches[k] in fetches;
    i :| 0 <= i < n && urls[i].Some? && fetches[k] == Fetch(urls[i].value, StepPath(dir, kind, i));
  }

  /** A step loop writes no file twice. */
  lemma SavedOnce(get: (Net, string) -> Run, net: Net, dir: string, kind: string, urls: seq<Option<string>>, n: nat)
    requires n <= |urls|
    ensures var saved := RunFetches(get, net, Selected(dir, kind, urls, n)).saved;
      forall a, b :: 0 <= a < b < |saved| ==> saved[a].path != saved[b].path
  {
    RunFetchesSaves(get, net, Selected(dir, kind, urls, n));
    SelectedExactly(dir, kind, urls, n);
  }

  /** A step loop that raised nothing wrote the file of every step that has a URL. */
  lemma SavedAll(get: (Net, string) -> Run, net: Net, dir: string, kind: string, urls: seq<Option<string>>, n: nat, i: nat)
    returns (k: nat)
    requires n <= |urls| && i < n && urls[i].Some?
    requires RunFetches(get, net, Selected(dir, kind, urls, n)).failure.None?
    ensures k < |RunFetches(get, net, Selected(dir, kind, urls, n)).saved|
    ensures RunFetches(get, net, Selected(dir, kind, urls, n)).saved[k].path == StepPath(dir, kind, i)
  {
    var fetches := Selected(dir, kind, urls, n);
    RunFetchesSaves(get, net, fetches);
    SelectedExactly(dir, kind, urls, n);
    k :| 0 <= k < |fetches| && fetches[k] == Fetch(urls[i].value, StepPath(dir, kind, i));
  }

  /**
   * download_diffs, once the statuses st are computed, writes the diff of FAILED
   * steps only, each into its own file, and, when nothing raised, the diff of
   * every FAILED step.
   */
  lemma DiffFilesOfFailedSteps(get: (Net, string) -> Run, net: Net, ref: Reference, st: seq<ResultStatus>, dir: string)
    ensures var d := RunFetches(get, net, Selected(dir, "diff", DiffUrls(ref, st), |st|));
      && (forall k :: 0 <= k < |d.saved| ==>
            exists i :: 0 <= i < |st| && st[i] == Failed && d.saved[k].path == StepPath(dir, "diff", i))
      && (forall a, b :: 0 <= a < b < |d.saved| ==> d.saved[a].path != d.saved[b].path)
      && (d.failure.None? ==> forall i :: 0 <= i < |st| && st[i] == Failed ==>
            exists k :: 0 <= k < |d.saved| && d.saved[k].path == StepPath(dir, "diff", i))
  {
    var urls := DiffUrls(ref, st);
    var d := RunFetches(get, net, Selected(dir, "diff", urls, |st|));
    forall k | 0 <= k < |d.saved|
      ensures exists i :: 0 <= i < |st| && st[i] == Failed && d.saved[k].path == StepPath(dir, "diff", i)
    {
      var i := SavedStep(get, net, dir, "diff", urls, |st|, k);
    }
    SavedOnce(get, net, dir, "diff", urls, |st|);
    if d.failure.None? {
      forall i | 0 <= i < |st| && st[i] == Failed
        ensures exists k :: 0 <= k < |d.saved| && d.saved[k].path == StepPath(dir, "diff", i)
      {
        var k := SavedAll(get, net, dir, "diff", urls, |st|, i);
      }
    }
  }

  /**
   * download_baseline_images / download_current_images write the image of
   * steps that have an image id only, each into its own file, and, when
   * nothing raised, the image of every such step among the first n.
   */
  lemma ImageFilesOfPresentSteps(get: (Net, string) -> Run, net: Net, server: string, outputs: seq<Option<AppOutput>>,
                                 n: nat, dir: string, kind: string)
    requires n <= |outputs|
    ensures var d := RunFetches(get, net, Selected(dir, kind, ImageUrls(server, outputs), n));
      && (forall k :: 0 <= k < |d.saved| ==>
            exists i :: 0 <= i < n && ImageIdAt(outputs, i).Some? && d.saved[k].path == StepPath(dir, kind, i))
      && (forall a, b :: 0 <= a < b < |d.saved| ==> d.saved[a].path != d.saved[b].path)
      && (d.failure.None? ==> forall i :: 0 <= i < n && ImageIdAt(outputs, i).Some? ==>
            exists k :: 0 <= k < |d.saved| && d.saved[k].path == StepPath(dir, kind, i))
  {
    var urls := ImageUrls(server, outputs);
    var d := RunFetches(get, net, Selected(dir, kind, urls, n));
    forall k | 0 <= k < |d.saved|
      ensures exists i :: 0 <= i < n && ImageIdAt(outputs, i).Some? && d.saved[k].path == StepPath(dir, kind, i)
    {
      var i := SavedStep(get, net, dir, kind, urls, n, k);
      ImageUrlPresent(server, outputs, i);
    }
    SavedOnce(get, net, dir, kind, urls, n);
    if d.failure.None? {
      forall i | 0 <= i < n && ImageIdAt(outputs, i).Some?
        ensures exists k :: 0 <= k < |d.saved| && d.saved[k].path == StepPath(dir, kind, i)
      {
        ImageUrlPresent(server, outputs, i);
        var k := SavedAll(get, net, dir, kind, urls, n, i);
      }
    }
  }

  /** A DiffPlan whose statuses cannot be computed raises before any download. */
  lemma DiffPlanUnreadable(get: (Net, string) -> Run, net: Net, ref: Reference, doc: TestJson, base: string)
    requires StepResults.StepResults(doc).Err?
    ensures RunPlan(get, net, DiffPlan(ref, doc, base)) == Downloaded(net, [], Some(IndexOutOfRange))
  {
  }
}

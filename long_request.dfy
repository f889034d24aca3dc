/**
 * The request side of the results handler, as functions over an explicit
 * network state: one attempt of send_request, its retries, the poll loop of
 * long_request_loop, the status dispatch of long_request_check_status and
 * send_long_request. The class in ResultsHandler runs the same steps in place
 * and is proved to end in the states these functions compute.
 */
module LongRequest {
  import opened Wrappers
  import opened Decimal

  /** Seconds slept before a retry when delay_before_retry is set. */
  const RetryRequestInterval: int := 500
  /** The delay a poll loop starts from. */
  const LongRequestDelay: int := 2
  const MaxLongRequestDelay: int := 10
  /** Set by the constructor and never read by the handler. */
  const DefaultTimeout: int := 30
  /** Set by the constructor and never read by the handler. */
  const ReducedTimeout: int := 15
  const RequestIdHeader := "x-applitools-eyes-client-request-id"

  /** A response: which response it is (tag), its status code and its location header, if any. */
  datatype Response = Response(tag: nat, status: int, location: Option<string>)

  /** What the transport does with one dispatched request: raise (connection error, timeout) or answer. */
  datatype Outcome = NoResponse | Delivered(response: Response)

  /** One request handed to the transport: method, full URL and headers as they were at that moment. */
  datatype Dispatch = Dispatch(requestType: string, url: string, headers: map<string, string>)

  /** The request dict create_request fills in. */
  datatype RequestData = RequestData(headers: map<string, string>, url: Option<string>, requestType: string)

  /**
   * The state the request code changes: the attempt counter, the outcomes the
   * transport still has to give, the requests dispatched so far and the
   * seconds slept so far.
   */
  datatype Net = Net(counter: nat, script: seq<Outcome>, sent: seq<Dispatch>, sleeps: seq<int>)

  /** What the request code reads but does not change: the view key, the formatted date and the uuid drawn for each attempt number. */
  datatype Env = Env(viewKey: string, date: string, token: nat -> string)

  /** The end of send_request: new state, the request dict as it was left, and the response or exception. */
  datatype Sent = Sent(net: Net, request: RequestData, result: Result<Response>)

  /** The end of a long request: new state and the response or exception. */
  datatype Run = Run(net: Net, result: Result<Response>)

  datatype AttemptOutcome = Returned(response: Response) | Raised(cause: Cause) | Stopped(error: Error)

  datatype Attempted = Attempted(net: Net, outcome: AttemptOutcome)

  /** min(max_long_request_delay, floor(delay * 1.5)); floor division by 2 is exact here. */
  function NextDelay(delay: int): (next: int)
    ensures next <= MaxLongRequestDelay
    ensures 0 <= delay <= MaxLongRequestDelay ==> delay <= next
    ensures LongRequestDelay <= delay < MaxLongRequestDelay ==> delay < next
  {
    Min(MaxLongRequestDelay, (delay * 3) / 2)
  }

  /** str(counter) + "--" + str(uuid4()) */
  function RequestId(counter: nat, token: nat -> string): string
  {
    NatToString(counter) + "--" + token(counter)
  }

  function CreatedHeaders(date: string): map<string, string>
  {
    map["Eyes-Expect" := "202+location", "Eyes-Date" := date]
  }

  /** create_request: the headers are replaced, the url and request type set. */
  function CreateRequest(date: string, requestType: string, url: Option<string>): (r: RequestData)
    ensures r.url == url && r.requestType == requestType
  {
    RequestData(CreatedHeaders(date), url, requestType)
  }

  /** create_request replaces the headers by exactly the two it builds. */
  lemma CreateRequestHeaders(date: string, requestType: string, url: Option<string>)
    ensures var r := CreateRequest(date, requestType, url);
      && r.headers.Keys == {"Eyes-Expect", "Eyes-Date"}
      && r.headers["Eyes-Expect"] == "202+location" && r.headers["Eyes-Date"] == date
  {
  }

  predicate ValidMethod(requestType: string)
  {
    requestType == "GET" || requestType == "POST" || requestType == "DELETE"
  }

  /** The URL dispatched for a stored URL: the key goes on the copy, not on the stored value. */
  function WithApiKey(url: string, viewKey: string): string
  {
    url + "?apiKey=" + viewKey
  }

  /** The dispatched URL starts with the stored one, unchanged, and carries the key after "?apiKey=". */
  lemma WithApiKeyKeepsUrl(url: string, viewKey: string)
    ensures url <= WithApiKey(url, viewKey)
    ensures WithApiKey(url, viewKey)[|url|..] == "?apiKey=" + viewKey
  {
  }

  function Repeat(x: int, n: nat): (r: seq<int>)
    ensures |r| == n && forall i :: 0 <= i < n ==> r[i] == x
  {
    if n == 0 then [] else [x] + Repeat(x, n - 1)
  }

  /**
   * The try block of send_request: an unknown request type raises before
   * anything is sent; otherwise the request goes to the transport, which
   * either fails or delivers a response.
   */
  function Attempt(net: Net, requestType: string, url: string, headers: map<string, string>): Attempted
  {
    if !ValidMethod(requestType) then Attempted(net, Raised(InvalidRequestType))
    else if net.script == [] then Attempted(net, Stopped(ScriptExhausted))
    else
      var next := net.(script := net.script[1..], sent := net.sent + [Dispatch(requestType, url, headers)]);
      match net.script[0]
      case NoResponse => Attempted(next, Raised(TransportFailure))
      case Delivered(r) => Attempted(next, Returned(r))
  }

  /**
   * send_request(request, retry, delay_before_retry). Each attempt bumps the
   * counter; a request without a URL fails there, before the try, and is not
   * retried; otherwise the id header is written into the request's headers and
   * the attempt is made. A raised attempt is retried while retry > 0, after a
   * sleep of 500 when delay_before_retry is set.
   */
  function Send(env: Env, net: Net, req: RequestData, retry: int, delayBeforeRetry: bool): (s: Sent)
    ensures |s.net.script| <= |net.script|
    ensures s.result.Ok? ==> |s.net.script| < |net.script|
    decreases if retry < 0 then 0 else retry
  {
    if req.url.None? then Sent(net.(counter := net.counter + 1), req, Err(UrlNotString))
    else
      var stamped := Stamp(env, net.counter + 1, req);
      var a := FirstAttempt(env, net, req);
      match a.outcome
      case Returned(r) => Sent(a.net, stamped, Ok(r))
      case Stopped(e) => Sent(a.net, stamped, Err(e))
      case Raised(cause) =>
        if retry > 0 then Send(env, Rest(a.net, delayBeforeRetry), stamped, retry - 1, delayBeforeRetry)
        else Sent(a.net, stamped, Err(SendFailed(cause)))
  }

  /**
   * long_request_loop(request, delay): grow the delay, sleep, send with the
   * default retry; send again while the answer is 200, and return the first
   * answer that is not.
   */
  function Poll(env: Env, net: Net, req: RequestData, delay: int): (s: Sent)
    ensures s.result.Ok? ==> s.result.value.status != 200
    ensures |s.net.script| <= |net.script|
    ensures s.result.Ok? ==> |s.net.script| < |net.script|
    decreases |net.script|
  {
    var s := PollSend(env, net, req, delay);
    if s.result.Err? || s.result.value.status != 200 then s
    else Poll(env, s.net, s.request, NextDelay(delay))
  }

  /** One round of the poll loop: sleep the grown delay, then send with the default retry. */
  function PollSend(env: Env, net: Net, req: RequestData, delay: int): Sent
  {
    Send(env, Slept(net, NextDelay(delay)), req, 1, false)
  }

  function Slept(net: Net, seconds: int): Net
  {
    net.(sleeps := net.sleeps + [seconds])
  }

  /**
   * long_request_check_status(response): 200 is returned as it is; 202 polls the
   * location and classifies the poll's answer again; 201 deletes the location
   * and returns that answer unclassified; 410 and anything else raise without
   * a further request.
   */
  function CheckStatus(env: Env, net: Net, response: Response): (r: Run)
    ensures |r.net.script| <= |net.script|
    decreases |net.script|
  {
    if response.status == 200 then Run(net, Ok(response))
    else if response.status == 202 then
      var p := AcceptedPoll(env, net, response);
      if p.result.Err? then Run(p.net, p.result)
      else CheckStatus(env, p.net, p.result.value)
    else if response.status == 201 then
      var s := CreatedDelete(env, net, response);
      Run(s.net, s.result)
    else if response.status == 410 then Run(net, Err(Gone))
    else Run(net, Err(UnknownStatus(response.status)))
  }

  /** The poll loop a 202 starts: a GET of the location, from the initial delay. */
  function AcceptedPoll(env: Env, net: Net, response: Response): Sent
  {
    Poll(env, net, CreateRequest(env.date, "GET", response.location), LongRequestDelay)
  }

  /** The request a 201 makes: a DELETE of the location, with the default retry. */
  function CreatedDelete(env: Env, net: Net, response: Response): Sent
  {
    Send(env, net, CreateRequest(env.date, "DELETE", response.location), 1, false)
  }

  /** send_long_request(request_type, url): one send with the default retry, then the status dispatch. */
  function SendLong(env: Env, net: Net, requestType: string, url: Option<string>): (r: Run)
    ensures |r.net.script| <= |net.script|
  {
    var s := Send(env, net, CreateRequest(env.date, requestType, url), 1, false);
    if s.result.Err? then Run(s.net, s.result)
    else CheckStatus(env, s.net, s.result.value)
  }

  /**
   * How the request code moves the state forward: the counter never goes down,
   * the transport's outcomes are used from the front, every outcome used adds
   * one dispatch to the log, and the logs only grow.
   */
  predicate Advances(before: Net, after: Net)
  {
    && before.counter <= after.counter
    && |after.script| <= |before.script| && after.script == before.script[|before.script| - |after.script|..]
    && |before.sent| <= |after.sent| && after.sent[..|before.sent|] == before.sent
    && |after.sent| - |before.sent| == |before.script| - |after.script|
    && |before.sleeps| <= |after.sleeps| && after.sleeps[..|before.sleeps|] == before.sleeps
  }

  lemma AdvancesTransitive(a: Net, b: Net, c: Net)
    requires Advances(a, b) && Advances(b, c)
    ensures Advances(a, c)
  {
    assert c.sent[..|a.sent|] == c.sent[..|b.sent|][..|a.sent|];
    assert c.sleeps[..|a.sleeps|] == c.sleeps[..|b.sleeps|][..|a.sleeps|];
  }

  /**
   * An attempt leaves the counter and the sleeps alone; an unknown request type
   * raises and sends nothing; otherwise the next outcome is used and one
   * dispatch logged, and the attempt returns exactly when that outcome is a
   * response.
   */
  lemma AttemptFacts(net: Net, requestType: string, url: string, headers: map<string, string>)
    ensures var a := Attempt(net, requestType, url, headers);
      && a.net.counter == net.counter && a.net.sleeps == net.sleeps
      && (a.outcome == Raised(InvalidRequestType) <==> !ValidMethod(requestType))
      && (a.outcome.Stopped? <==> ValidMethod(requestType) && net.script == [])
      && (!ValidMethod(requestType) || net.script == [] ==> a.net == net)
      && (ValidMethod(requestType) && net.script != [] ==>
            && a.net.script == net.script[1..]
            && a.net.sent == net.sent + [Dispatch(requestType, url, headers)]
            && (a.outcome.Returned? <==> net.script[0].Delivered?)
            && (a.outcome.Returned? ==> a.outcome.response == net.script[0].response))
  {
  }

  /** The id header the attempt with number c writes into the request's headers. */
  function Stamp(env: Env, c: nat, req: RequestData): RequestData
  {
    req.(headers := req.headers[RequestIdHeader := RequestId(c, env.token)])
  }

  /**
   * Writing the id header sets that header to the id of attempt c, adds no
   * other header, and leaves the url, the request type and every other header
   * as they were.
   */
  lemma StampKeepsHeaders(env: Env, c: nat, req: RequestData)
    ensures Stamp(env, c, req).url == req.url && Stamp(env, c, req).requestType == req.requestType
    ensures Stamp(env, c, req).headers.Keys == req.headers.Keys + {RequestIdHeader}
    ensures Stamp(env, c, req).headers[RequestIdHeader] == RequestId(c, env.token)
    ensures forall h :: h in req.headers && h != RequestIdHeader ==> Stamp(env, c, req).headers[h] == req.headers[h]
  {
  }

  /** The state after the optional sleep before a retry. */
  function Rest(net: Net, delayBeforeRetry: bool): Net
  {
    if delayBeforeRetry then net.(sleeps := net.sleeps + [RetryRequestInterval]) else net
  }

  /** The attempt send_request makes with the next counter value, once the request has a url. */
  function FirstAttempt(env: Env, net: Net, req: RequestData): Attempted
    requires req.url.Some?
  {
    var c := net.counter + 1;
    Attempt(net.(counter := c), req.requestType, WithApiKey(req.url.value, env.viewKey), Stamp(env, c, req).headers)
  }

  /** A raised attempt with retries left continues from the stamped request, after the optional sleep. */
  lemma SendRetries(env: Env, net: Net, req: RequestData, retry: int, delayBeforeRetry: bool)
    requires req.url.Some? && FirstAttempt(env, net, req).outcome.Raised? && retry > 0
    ensures Send(env, net, req, retry, delayBeforeRetry)
      == Send(env, Rest(FirstAttempt(env, net, req).net, delayBeforeRetry), Stamp(env, net.counter + 1, req), retry - 1, delayBeforeRetry)
  {
  }

  /** One retry step of the loop that runs send_request: what remains to be done is the rest of the same run. */
  lemma SendRetryStep(env: Env, net: Net, req: RequestData, retry: int, delayBeforeRetry: bool, run: Sent)
    requires req.url.Some? && FirstAttempt(env, net, req).outcome.Raised? && retry > 0
    requires Send(env, net, req, retry, delayBeforeRetry) == run
    ensures Send(env, Rest(FirstAttempt(env, net, req).net, delayBeforeRetry), Stamp(env, net.counter + 1, req), retry - 1, delayBeforeRetry) == run
  {
    SendRetries(env, net, req, retry, delayBeforeRetry);
  }

  /** Otherwise send_request ends with the first attempt. */
  lemma SendStops(env: Env, net: Net, req: RequestData, retry: int, delayBeforeRetry: bool)
    requires req.url.Some? && !(FirstAttempt(env, net, req).outcome.Raised? && retry > 0)
    ensures Send(env, net, req, retry, delayBeforeRetry).net == FirstAttempt(env, net, req).net
    ensures Send(env, net, req, retry, delayBeforeRetry).request == Stamp(env, net.counter + 1, req)
    ensures Send(env, net, req, retry, delayBeforeRetry).result ==
      match FirstAttempt(env, net, req).outcome
      case Returned(r) => Ok(r)
      case Stopped(e) => Err(e)
      case Raised(cause) => Err(SendFailed(cause))
  {
  }

  /** The first attempt counts itself and does not sleep. */
  lemma FirstAttemptCounts(env: Env, net: Net, req: RequestData)
    requires req.url.Some?
    ensures FirstAttempt(env, net, req).net.counter == net.counter + 1
    ensures FirstAttempt(env, net, req).net.sleeps == net.sleeps
  {
    var c := net.counter + 1;
    AttemptFacts(net.(counter := c), req.requestType, WithApiKey(req.url.value, env.viewKey), Stamp(env, c, req).headers);
  }

  /** The sleep before a retry is one pause. */
  lemma RestPauses(net: Net, delayBeforeRetry: bool)
    ensures Rest(net, delayBeforeRetry).counter == net.counter
    ensures Rest(net, delayBeforeRetry).sleeps == net.sleeps + Pauses(delayBeforeRetry, 1)
  {
    if !delayBeforeRetry {
      assert net.sleeps + [] == net.sleeps;
    }
  }

  /** The first attempt moves the state forward. */
  lemma FirstAttemptAdvances(env: Env, net: Net, req: RequestData)
    requires req.url.Some?
    ensures Advances(net, FirstAttempt(env, net, req).net)
  {
    var c := net.counter + 1;
    CountedAttemptAdvances(net, c, req.requestType, WithApiKey(req.url.value, env.viewKey), Stamp(env, c, req).headers);
  }

  /** Counting an attempt and then making it moves the state forward. */
  lemma CountedAttemptAdvances(net: Net, c: nat, requestType: string, url: string, headers: map<string, string>)
    requires net.counter <= c
    ensures Advances(net, Attempt(net.(counter := c), requestType, url, headers).net)
  {
    var a := Attempt(net.(counter := c), requestType, url, headers);
    if ValidMethod(requestType) && net.script != [] {
      assert a.net.script == net.script[1..];
      assert a.net.sent[..|net.sent|] == net.sent;
    } else {
      assert a.net.sent[..|net.sent|] == net.sent;
    }
    assert a.net.sleeps[..|net.sleeps|] == net.sleeps;
  }

  /** The sleep before a retry moves the state forward. */
  lemma RestAdvances(net: Net, delayBeforeRetry: bool)
    ensures Advances(net, Rest(net, delayBeforeRetry))
  {
    assert Rest(net, delayBeforeRetry).sleeps[..|net.sleeps|] == net.sleeps;
  }

  /** One call of send_request only moves the state forward. */
  lemma {:induction false} SendAdvances(env: Env, net: Net, req: RequestData, retry: int, delayBeforeRetry: bool)
    ensures Advances(net, Send(env, net, req, retry, delayBeforeRetry).net)
    decreases if retry < 0 then 0 else retry
  {
    if req.url.Some? {
      var a := FirstAttempt(env, net, req);
      FirstAttemptAdvances(env, net, req);
      if a.outcome.Raised? && retry > 0 {
        SendRetries(env, net, req, retry, delayBeforeRetry);
        var rested := Rest(a.net, delayBeforeRetry);
        var stamped := Stamp(env, net.counter + 1, req);
        RestAdvances(a.net, delayBeforeRetry);
        AdvancesTransitive(net, a.net, rested);
        SendAdvances(env, rested, stamped, retry - 1, delayBeforeRetry);
        AdvancesTransitive(net, rested, Send(env, rested, stamped, retry - 1, delayBeforeRetry).net);
      } else {
        SendStops(env, net, req, retry, delayBeforeRetry);
      }
    }
  }

  /** One call of send_request makes between 1 and retry + 1 attempts, each one counted. */
  lemma {:induction false} SendCounts(env: Env, net: Net, req: RequestData, retry: int, delayBeforeRetry: bool)
    ensures net.counter < Send(env, net, req, retry, delayBeforeRetry).net.counter
    ensures Send(env, net, req, retry, delayBeforeRetry).net.counter <= net.counter + 1 + (if retry > 0 then retry else 0)
    decreases if retry < 0 then 0 else retry
  {
    if req.url.Some? {
      var a := FirstAttempt(env, net, req);
      var c := net.counter + 1;
      if a.outcome.Raised? && retry > 0 {
        SendRetries(env, net, req, retry, delayBeforeRetry);
        var rested := Rest(a.net, delayBeforeRetry);
        SendCounts(env, rested, Stamp(env, c, req), retry - 1, delayBeforeRetry);
      } else {
        SendStops(env, net, req, retry, delayBeforeRetry);
      }
    }
  }

  /** The sleeps before n retries. */
  function Pauses(delayBeforeRetry: bool, n: nat): (r: seq<int>)
    ensures delayBeforeRetry ==> r == Repeat(RetryRequestInterval, n)
    ensures !delayBeforeRetry ==> r == []
  {
    if delayBeforeRetry then Repeat(RetryRequestInterval, n) else []
  }

  lemma PausesAdd(delayBeforeRetry: bool, m: nat, n: nat)
    ensures Pauses(delayBeforeRetry, m) + Pauses(delayBeforeRetry, n) == Pauses(delayBeforeRetry, m + n)
  {
    if delayBeforeRetry {
      assert Repeat(RetryRequestInterval, m) + Repeat(RetryRequestInterval, n) == Repeat(RetryRequestInterval, m + n);
    }
  }

  /**
   * The sleeps from before to after are one pause of 500 seconds per attempt
   * after the first when delay_before_retry is set, and none otherwise.
   */
  predicate PausedPerRetry(before: Net, after: Net, delayBeforeRetry: bool)
  {
    && before.counter < after.counter
    && after.sleeps == before.sleeps + Pauses(delayBeforeRetry, after.counter - before.counter - 1)
  }

  lemma PausedPerRetryStep(net: Net, rested: Net, after: Net, delayBeforeRetry: bool)
    requires rested.counter == net.counter + 1
    requires rested.sleeps == net.sleeps + Pauses(delayBeforeRetry, 1)
    requires PausedPerRetry(rested, after, delayBeforeRetry)
    ensures PausedPerRetry(net, after, delayBeforeRetry)
  {
    PausesAdd(delayBeforeRetry, 1, after.counter - rested.counter - 1);
  }

  /** send_request sleeps 500 seconds before each retry exactly when delay_before_retry is set, and at no other time. */
  lemma {:induction false} SendSleeps(env: Env, net: Net, req: RequestData, retry: int, delayBeforeRetry: bool)
    ensures PausedPerRetry(net, Send(env, net, req, retry, delayBeforeRetry).net, delayBeforeRetry)
    decreases if retry < 0 then 0 else retry
  {
    if req.url.Some? {
      var a := FirstAttempt(env, net, req);
      FirstAttemptCounts(env, net, req);
      if a.outcome.Raised? && retry > 0 {
        SendRetries(env, net, req, retry, delayBeforeRetry);
        var rested := Rest(a.net, delayBeforeRetry);
        var stamped := Stamp(env, net.counter + 1, req);
        RestPauses(a.net, delayBeforeRetry);
        SendSleeps(env, rested, stamped, retry - 1, delayBeforeRetry);
        PausedPerRetryStep(net, rested, Send(env, rested, stamped, retry - 1, delayBeforeRetry).net, delayBeforeRetry);
      } else {
        SendStops(env, net, req, retry, delayBeforeRetry);
        assert Pauses(delayBeforeRetry, 0) == [];
      }
    }
  }

  /** Every dispatch logged after position start went to url with method requestType. */
  predicate DispatchedAs(sent: seq<Dispatch>, start: nat, requestType: string, url: string)
  {
    forall i :: start <= i < |sent| ==> sent[i].url == url && sent[i].requestType == requestType
  }

  lemma FirstAttemptDispatches(env: Env, net: Net, req: RequestData)
    requires req.url.Some?
    ensures |net.sent| <= |FirstAttempt(env, net, req).net.sent|
    ensures DispatchedAs(FirstAttempt(env, net, req).net.sent, |net.sent|, req.requestType, WithApiKey(req.url.value, env.viewKey))
  {
    var c := net.counter + 1;
    AttemptFacts(net.(counter := c), req.requestType, WithApiKey(req.url.value, env.viewKey), Stamp(env, c, req).headers);
  }

  /** Two stretches of a log that went to the same url with the same method make one. */
  lemma DispatchedAsJoin(first: seq<Dispatch>, last: seq<Dispatch>, start: nat, requestType: string, url: string)
    requires start <= |first| <= |last| && last[..|first|] == first
    requires DispatchedAs(first, start, requestType, url) && DispatchedAs(last, |first|, requestType, url)
    ensures DispatchedAs(last, start, requestType, url)
  {
    forall i | start <= i < |first|
      ensures last[i].url == url && last[i].requestType == requestType
    {
      assert last[i] == last[..|first|][i];
    }
  }

  /** send_request only appends to the log. */
  lemma SendExtendsLog(env: Env, net: Net, req: RequestData, retry: int, delayBeforeRetry: bool)
    ensures |net.sent| <= |Send(env, net, req, retry, delayBeforeRetry).net.sent|
    ensures Send(env, net, req, retry, delayBeforeRetry).net.sent[..|net.sent|] == net.sent
  {
    SendAdvances(env, net, req, retry, delayBeforeRetry);
  }

  /** Every request send_request hands to the transport is the stored one, with the key added to a copy of its url. */
  lemma {:induction false} SendDispatches(env: Env, net: Net, req: RequestData, retry: int, delayBeforeRetry: bool)
    ensures var s := Send(env, net, req, retry, delayBeforeRetry);
      && s.request.url == req.url && s.request.requestType == req.requestType
      && (|s.net.sent| > |net.sent| ==> req.url.Some?)
      && (req.url.Some? ==> DispatchedAs(s.net.sent, |net.sent|, req.requestType, WithApiKey(req.url.value, env.viewKey)))
    decreases if retry < 0 then 0 else retry
  {
    if req.url.Some? {
      var a := FirstAttempt(env, net, req);
      var url := WithApiKey(req.url.value, env.viewKey);
      FirstAttemptDispatches(env, net, req);
      if a.outcome.Raised? && retry > 0 {
        SendRetries(env, net, req, retry, delayBeforeRetry);
        var rested := Rest(a.net, delayBeforeRetry);
        var stamped := Stamp(env, net.counter + 1, req);
        var s := Send(env, rested, stamped, retry - 1, delayBeforeRetry);
        SendDispatches(env, rested, stamped, retry - 1, delayBeforeRetry);
        SendExtendsLog(env, rested, stamped, retry - 1, delayBeforeRetry);
        DispatchedAsJoin(rested.sent, s.net.sent, |net.sent|, req.requestType, url);
      } else {
        SendStops(env, net, req, retry, delayBeforeRetry);
      }
    }
  }

  /**
   * With retry = r, a request whose every attempt fails in the transport is
   * attempted exactly r + 1 times, each attempt dispatched, and then the last
   * failure is raised.
   */
  lemma {:induction false} SendAllAttemptsFail(env: Env, net: Net, req: RequestData, r: nat, delayBeforeRetry: bool)
    requires req.url.Some? && ValidMethod(req.requestType)
    requires r < |net.script| && forall j :: 0 <= j <= r ==> net.script[j] == NoResponse
    ensures var s := Send(env, net, req, r, delayBeforeRetry);
      && s.result == Err(SendFailed(TransportFailure))
      && s.net.counter == net.counter + r + 1
      && s.net.script == net.script[r + 1..]
      && |s.net.sent| == |net.sent| + r + 1
      && s.net.sleeps == net.sleeps + Pauses(delayBeforeRetry, r)
    decreases r
  {
    var c := net.counter + 1;
    var a := FirstAttempt(env, net, req);
    AttemptFacts(net.(counter := c), req.requestType, WithApiKey(req.url.value, env.viewKey), Stamp(env, c, req).headers);
    SendSleeps(env, net, req, r, delayBeforeRetry);
    if r > 0 {
      SendRetries(env, net, req, r, delayBeforeRetry);
      var rested := Rest(a.net, delayBeforeRetry);
      assert rested.script == net.script[1..];
      SendAllAttemptsFail(env, rested, Stamp(env, c, req), r - 1, delayBeforeRetry);
      assert net.script[1..][r..] == net.script[r + 1..];
    } else {
      SendStops(env, net, req, r, delayBeforeRetry);
    }
  }

  /**
   * The first attempt that gets a response ends send_request with that
   * response: after j transport failures (j <= retry) the (j+1)-th outcome is
   * returned and nothing after it is used.
   */
  lemma {:induction false} SendReturnsFirstResponse(env: Env, net: Net, req: RequestData, retry: int, delayBeforeRetry: bool, j: nat)
    requires req.url.Some? && ValidMethod(req.requestType)
    requires j <= retry && j < |net.script|
    requires forall i :: 0 <= i < j ==> net.script[i] == NoResponse
    requires net.script[j].Delivered?
    ensures var s := Send(env, net, req, retry, delayBeforeRetry);
      && s.result == Ok(net.script[j].response)
      && s.net.counter == net.counter + j + 1
      && s.net.script == net.script[j + 1..]
      && |s.net.sent| == |net.sent| + j + 1
      && s.net.sleeps == net.sleeps + Pauses(delayBeforeRetry, j)
    decreases j
  {
    var c := net.counter + 1;
    var a := FirstAttempt(env, net, req);
    AttemptFacts(net.(counter := c), req.requestType, WithApiKey(req.url.value, env.viewKey), Stamp(env, c, req).headers);
    SendSleeps(env, net, req, retry, delayBeforeRetry);
    if j > 0 {
      SendRetries(env, net, req, retry, delayBeforeRetry);
      var rested := Rest(a.net, delayBeforeRetry);
      assert rested.script == net.script[1..];
      SendReturnsFirstResponse(env, rested, Stamp(env, c, req), retry - 1, delayBeforeRetry, j - 1);
      assert net.script[1..][j..] == net.script[j + 1..];
    } else {
      SendStops(env, net, req, retry, delayBeforeRetry);
    }
  }

  /**
   * An unknown request type raises inside the try, so it is retried like a
   * transport failure: retry + 1 counted attempts, nothing dispatched, then the
   * exception.
   */
  lemma {:induction false} SendInvalidMethod(env: Env, net: Net, req: RequestData, r: nat, delayBeforeRetry: bool)
    requires req.url.Some? && !ValidMethod(req.requestType)
    ensures var s := Send(env, net, req, r, delayBeforeRetry);
      && s.result == Err(SendFailed(InvalidRequestType))
      && s.net.counter == net.counter + r + 1
      && s.net.script == net.script
      && s.net.sent == net.sent
      && s.net.sleeps == net.sleeps + Pauses(delayBeforeRetry, r)
    decreases r
  {
    var c := net.counter + 1;
    var a := FirstAttempt(env, net, req);
    AttemptFacts(net.(counter := c), req.requestType, WithApiKey(req.url.value, env.viewKey), Stamp(env, c, req).headers);
    SendSleeps(env, net, req, r, delayBeforeRetry);
    if r > 0 {
      SendRetries(env, net, req, r, delayBeforeRetry);
      SendInvalidMethod(env, Rest(a.net, delayBeforeRetry), Stamp(env, c, req), r - 1, delayBeforeRetry);
    } else {
      SendStops(env, net, req, r, delayBeforeRetry);
    }
  }

  /** A request without a url fails on its first attempt, after the counter is bumped and before anything else. */
  lemma SendWithoutUrl(env: Env, net: Net, req: RequestData, retry: int, delayBeforeRetry: bool)
    requires req.url.None?
    ensures Send(env, net, req, retry, delayBeforeRetry) == Sent(net.(counter := net.counter + 1), req, Err(UrlNotString))
  {
  }

  /** The attempt number an id header starts with, or -1 when a dispatch carries none. */
  function AttemptOf(d: Dispatch): int
  {
    if RequestIdHeader in d.headers then
      var digits := LeadingDigits(d.headers[RequestIdHeader]);
      if digits == [] then -1 else Value(digits)
    else -1
  }

  /** The id of attempt c starts with the decimal digits of c, and nothing else: "--" stops the digit run. */
  lemma {:induction false} RequestIdNumber(c: nat, token: nat -> string)
    ensures LeadingDigits(RequestId(c, token)) == NatToString(c)
    ensures Value(LeadingDigits(RequestId(c, token))) == c
  {
    var rest := "--" + token(c);
    assert RequestId(c, token) == NatToString(c) + rest;
    assert rest[0] == '-';
    LeadingDigitsOfDigitsThen(NatToString(c), rest);
    ValueOfNatToString(c);
  }

  /**
   * Each dispatched request carries, in its id header, the number of the
   * attempt that sent it; the numbers increase along the log and none is
   * above the counter.
   */
  predicate IdsIncreasing(net: Net)
  {
    && (forall i :: 0 <= i < |net.sent| ==> 1 <= AttemptOf(net.sent[i]) <= net.counter)
    && (forall i, j :: 0 <= i < j < |net.sent| ==> AttemptOf(net.sent[i]) < AttemptOf(net.sent[j]))
  }

  /** Within one handler no two dispatched requests carry the same id. */
  lemma DistinctRequestIds(net: Net)
    requires IdsIncreasing(net)
    ensures forall i, j :: 0 <= i < j < |net.sent| ==>
      && RequestIdHeader in net.sent[i].headers && RequestIdHeader in net.sent[j].headers
      && net.sent[i].headers[RequestIdHeader] != net.sent[j].headers[RequestIdHeader]
  {
    forall i, j | 0 <= i < j < |net.sent|
      ensures RequestIdHeader in net.sent[i].headers && RequestIdHeader in net.sent[j].headers
      ensures net.sent[i].headers[RequestIdHeader] != net.sent[j].headers[RequestIdHeader]
    {
      assert AttemptOf(net.sent[i]) < AttemptOf(net.sent[j]);
    }
  }

  lemma FirstAttemptKeepsIds(env: Env, net: Net, req: RequestData, delayBeforeRetry: bool)
    requires req.url.Some? && IdsIncreasing(net)
    ensures IdsIncreasing(Rest(FirstAttempt(env, net, req).net, delayBeforeRetry))
    ensures IdsIncreasing(FirstAttempt(env, net, req).net)
  {
    var c := net.counter + 1;
    var a := FirstAttempt(env, net, req);
    AttemptFacts(net.(counter := c), req.requestType, WithApiKey(req.url.value, env.viewKey), Stamp(env, c, req).headers);
    if a.net.sent == net.sent {
      IdsIncreasingCounted(net, a.net);
    } else {
      StampedAttempt(env, c, req);
      IdsIncreasingAppend(net, a.net, Dispatch(req.requestType, WithApiKey(req.url.value, env.viewKey), Stamp(env, c, req).headers));
    }
    IdsIncreasingCounted(a.net, Rest(a.net, delayBeforeRetry));
  }

  /** Raising the counter without sending anything keeps the ids increasing. */
  lemma IdsIncreasingCounted(net: Net, after: Net)
    requires IdsIncreasing(net) && after.sent == net.sent && net.counter <= after.counter
    ensures IdsIncreasing(after)
  {
  }

  /** Sending one request stamped with the next counter value keeps the ids increasing. */
  lemma IdsIncreasingAppend(net: Net, after: Net, d: Dispatch)
    requires IdsIncreasing(net) && after.counter == net.counter + 1
    requires after.sent == net.sent + [d] && AttemptOf(d) == after.counter
    ensures IdsIncreasing(after)
  {
  }

  /** The dispatch made for attempt c carries attempt number c. */
  lemma StampedAttempt(env: Env, c: nat, req: RequestData)
    requires req.url.Some? && c >= 1
    ensures AttemptOf(Dispatch(req.requestType, WithApiKey(req.url.value, env.viewKey), Stamp(env, c, req).headers)) == c
  {
    RequestIdNumber(c, env.token);
  }

  /** send_request keeps the ids increasing: every attempt it dispatches is numbered above all earlier ones. */
  lemma {:induction false} SendKeepsIds(env: Env, net: Net, req: RequestData, retry: int, delayBeforeRetry: bool)
    requires IdsIncreasing(net)
    ensures IdsIncreasing(Send(env, net, req, retry, delayBeforeRetry).net)
    decreases if retry < 0 then 0 else retry
  {
    if req.url.Some? {
      var a := FirstAttempt(env, net, req);
      FirstAttemptKeepsIds(env, net, req, delayBeforeRetry);
      if a.outcome.Raised? && retry > 0 {
        SendRetries(env, net, req, retry, delayBeforeRetry);
        SendKeepsIds(env, Rest(a.net, delayBeforeRetry), Stamp(env, net.counter + 1, req), retry - 1, delayBeforeRetry);
      } else {
        SendStops(env, net, req, retry, delayBeforeRetry);
      }
    }
  }

  /** The delays slept by n successive polls that start from delay. */
  function Schedule(delay: int, n: nat): (r: seq<int>)
    ensures |r| == n
    decreases n
  {
    if n == 0 then [] else [NextDelay(delay)] + Schedule(NextDelay(delay), n - 1)
  }

  /** The delay after m polls. */
  function Iterate(delay: int, m: nat): int
    decreases m
  {
    if m == 0 then delay else Iterate(NextDelay(delay), m - 1)
  }

  lemma {:induction false} ScheduleIndex(delay: int, n: nat, k: nat)
    requires k < n
    ensures Schedule(delay, n)[k] == Iterate(delay, k + 1)
    decreases k
  {
    if k > 0 {
      ScheduleIndex(NextDelay(delay), n - 1, k - 1);
    }
  }

  /**
   * From any delay in 0..10 the poll delays never go down and never exceed
   * 10, and none is below the delay they started from.
   */
  lemma {:induction false} ScheduleBounds(delay: int, n: nat)
    requires 0 <= delay <= MaxLongRequestDelay
    ensures forall k :: 0 <= k < n ==> delay <= Schedule(delay, n)[k] <= MaxLongRequestDelay
    ensures forall k :: 0 < k < n ==> Schedule(delay, n)[k - 1] <= Schedule(delay, n)[k]
    decreases n
  {
    if n > 0 {
      var next := NextDelay(delay);
      ScheduleBounds(next, n - 1);
      assert Schedule(delay, n) == [next] + Schedule(next, n - 1);
    }
  }

  /** Once at the cap the delay stays there. */
  lemma {:induction false} IterateAtCap(m: nat)
    ensures Iterate(MaxLongRequestDelay, m) == MaxLongRequestDelay
  {
    if m > 0 {
      IterateAtCap(m - 1);
    }
  }

  lemma IterateFromStart(m: nat)
    requires m >= 1
    ensures m <= 4 ==> Iterate(LongRequestDelay, m) == [3, 4, 6, 9][m - 1]
    ensures m > 4 ==> Iterate(LongRequestDelay, m) == MaxLongRequestDelay
  {
    assert Iterate(2, m) == Iterate(3, m - 1);
    if m > 1 {
      assert Iterate(3, m - 1) == Iterate(4, m - 2);
    }
    if m > 2 {
      assert Iterate(4, m - 2) == Iterate(6, m - 3);
    }
    if m > 3 {
      assert Iterate(6, m - 3) == Iterate(9, m - 4);
    }
    if m > 4 {
      assert Iterate(9, m - 4) == Iterate(10, m - 5);
      IterateAtCap(m - 5);
    }
  }

  /** From the initial delay of 2 the polls sleep 3, 4, 6, 9 and then 10 every time. */
  lemma ScheduleFromStart(n: nat)
    ensures forall k :: 0 <= k < n && k < 4 ==> Schedule(LongRequestDelay, n)[k] == [3, 4, 6, 9][k]
    ensures forall k :: 4 <= k < n ==> Schedule(LongRequestDelay, n)[k] == MaxLongRequestDelay
  {
    forall k | 0 <= k < n
      ensures k < 4 ==> Schedule(LongRequestDelay, n)[k] == [3, 4, 6, 9][k]
      ensures 4 <= k ==> Schedule(LongRequestDelay, n)[k] == MaxLongRequestDelay
    {
      ScheduleIndex(LongRequestDelay, n, k);
      IterateFromStart(k + 1);
    }
  }

  /** A round that gets a 200 leads to another round from the grown delay. */
  lemma PollContinues(env: Env, net: Net, req: RequestData, delay: int)
    requires PollSend(env, net, req, delay).result.Ok? && PollSend(env, net, req, delay).result.value.status == 200
    ensures Poll(env, net, req, delay)
      == Poll(env, PollSend(env, net, req, delay).net, PollSend(env, net, req, delay).request, NextDelay(delay))
  {
  }

  /** Any other round ends the loop with what the round got. */
  lemma PollStops(env: Env, net: Net, req: RequestData, delay: int)
    requires PollSend(env, net, req, delay).result.Err? || PollSend(env, net, req, delay).result.value.status != 200
    ensures Poll(env, net, req, delay) == PollSend(env, net, req, delay)
  {
  }

  lemma {:induction false} PollAdvances(env: Env, net: Net, req: RequestData, delay: int)
    ensures Advances(net, Poll(env, net, req, delay).net)
    decreases |net.script|
  {
    var s := PollSend(env, net, req, delay);
    var slept := Slept(net, NextDelay(delay));
    assert Advances(net, slept) by {
      assert slept.sleeps[..|net.sleeps|] == net.sleeps;
    }
    SendAdvances(env, slept, req, 1, false);
    AdvancesTransitive(net, slept, s.net);
    if s.result.Ok? && s.result.value.status == 200 {
      PollContinues(env, net, req, delay);
      PollAdvances(env, s.net, s.request, NextDelay(delay));
      AdvancesTransitive(net, s.net, Poll(env, s.net, s.request, NextDelay(delay)).net);
    } else {
      PollStops(env, net, req, delay);
    }
  }

  /** Sleeping the grown delay and then n rounds from it is n + 1 rounds from the delay before. */
  lemma ScheduleStep(before: seq<int>, delay: int, after: seq<int>, n: nat)
    requires after == before + [NextDelay(delay)] + Schedule(NextDelay(delay), n)
    ensures after == before + Schedule(delay, n + 1)
  {
    var x := NextDelay(delay);
    assert Schedule(delay, n + 1) == [x] + Schedule(x, n);
  }

  /** A round sleeps the grown delay once, and send_request with its defaults sleeps no more. */
  lemma PollSendSleeps(env: Env, net: Net, req: RequestData, delay: int)
    ensures PollSend(env, net, req, delay).net.sleeps == net.sleeps + [NextDelay(delay)]
  {
    var slept := Slept(net, NextDelay(delay));
    SendSleeps(env, slept, req, 1, false);
    assert Pauses(false, PollSend(env, net, req, delay).net.counter - slept.counter - 1) == [];
  }

  /** From before to after, one or more sleeps were added, and they follow the schedule from delay. */
  predicate SleptSchedule(before: seq<int>, after: seq<int>, delay: int)
  {
    |before| < |after| && after == before + Schedule(delay, |after| - |before|)
  }

  lemma SleptOnce(before: seq<int>, delay: int)
    ensures SleptSchedule(before, before + [NextDelay(delay)], delay)
  {
    ScheduleStep(before, delay, before + [NextDelay(delay)], 0);
  }

  lemma SleptMore(before: seq<int>, delay: int, after: seq<int>)
    requires SleptSchedule(before + [NextDelay(delay)], after, NextDelay(delay))
    ensures SleptSchedule(before, after, delay)
  {
    ScheduleStep(before, delay, after, |after| - |before| - 1);
  }

  /**
   * The poll loop sleeps before each round, and the sleeps are the delay
   * schedule from the delay it was given: one or more rounds, nothing else slept.
   */
  lemma {:induction false} PollSleeps(env: Env, net: Net, req: RequestData, delay: int)
    ensures SleptSchedule(net.sleeps, Poll(env, net, req, delay).net.sleeps, delay)
    decreases |net.script|
  {
    var s := PollSend(env, net, req, delay);
    var d := NextDelay(delay);
    PollSendSleeps(env, net, req, delay);
    if s.result.Ok? && s.result.value.status == 200 {
      PollContinues(env, net, req, delay);
      PollSleeps(env, s.net, s.request, d);
      SleptMore(net.sleeps, delay, Poll(env, s.net, s.request, d).net.sleeps);
    } else {
      PollStops(env, net, req, delay);
      SleptOnce(net.sleeps, delay);
    }
  }

  /** Every round of the poll loop sends the same stored request again, to the same url with the key added. */
  lemma {:induction false} PollDispatches(env: Env, net: Net, req: RequestData, delay: int)
    ensures var p := Poll(env, net, req, delay);
      && (|p.net.sent| > |net.sent| ==> req.url.Some?)
      && (req.url.Some? ==> DispatchedAs(p.net.sent, |net.sent|, req.requestType, WithApiKey(req.url.value, env.viewKey)))
    decreases |net.script|
  {
    var s := PollSend(env, net, req, delay);
    var slept := Slept(net, NextDelay(delay));
    SendDispatches(env, slept, req, 1, false);
    if s.result.Ok? && s.result.value.status == 200 {
      PollContinues(env, net, req, delay);
      PollDispatches(env, s.net, s.request, NextDelay(delay));
      PollAdvances(env, s.net, s.request, NextDelay(delay));
      var p := Poll(env, s.net, s.request, NextDelay(delay));
      if req.url.Some? {
        forall i | |net.sent| <= i < |p.net.sent|
          ensures p.net.sent[i].url == WithApiKey(req.url.value, env.viewKey) && p.net.sent[i].requestType == req.requestType
        {
          if i < |s.net.sent| {
            assert p.net.sent[i] == p.net.sent[..|s.net.sent|][i];
          }
        }
      }
    } else {
      PollStops(env, net, req, delay);
    }
  }

  lemma {:induction false} PollKeepsIds(env: Env, net: Net, req: RequestData, delay: int)
    requires IdsIncreasing(net)
    ensures IdsIncreasing(Poll(env, net, req, delay).net)
    decreases |net.script|
  {
    var s := PollSend(env, net, req, delay);
    SendKeepsIds(env, Slept(net, NextDelay(delay)), req, 1, false);
    if s.result.Ok? && s.result.value.status == 200 {
      PollContinues(env, net, req, delay);
      PollKeepsIds(env, s.net, s.request, NextDelay(delay));
    } else {
      PollStops(env, net, req, delay);
    }
  }

  /** The outcomes the transport gives when every attempt gets a response. */
  function Deliveries(rs: seq<Response>): (os: seq<Outcome>)
    ensures |os| == |rs| && forall i :: 0 <= i < |rs| ==> os[i] == Delivered(rs[i])
  {
    seq(|rs|, i requires 0 <= i < |rs| => Delivered(rs[i]))
  }

  lemma DeliveriesTail(rs: seq<Response>, rest: seq<Outcome>)
    requires |rs| > 0
    ensures (Deliveries(rs) + rest)[0] == Delivered(rs[0])
    ensures (Deliveries(rs) + rest)[1..] == Deliveries(rs[1..]) + rest
  {
  }

  /**
   * When the transport answers every attempt, the poll loop keeps sending while
   * the answer is 200 and returns the first answer that is not, unchanged,
   * after one round per answer and the delay schedule of sleeps.
   */
  lemma {:induction false} PollReturnsFirstNon200(env: Env, net: Net, req: RequestData, delay: int, rs: seq<Response>, rest: seq<Outcome>)
    requires req.url.Some? && ValidMethod(req.requestType)
    requires |rs| > 0 && net.script == Deliveries(rs) + rest
    requires forall i :: 0 <= i < |rs| - 1 ==> rs[i].status == 200
    requires rs[|rs| - 1].status != 200
    ensures var p := Poll(env, net, req, delay);
      && p.result == Ok(rs[|rs| - 1])
      && p.net.script == rest
      && p.net.counter == net.counter + |rs|
      && |p.net.sent| == |net.sent| + |rs|
      && p.net.sleeps == net.sleeps + Schedule(delay, |rs|)
    decreases |rs|
  {
    var d := NextDelay(delay);
    var slept := Slept(net, d);
    var s := PollSend(env, net, req, delay);
    DeliveriesTail(rs, rest);
    SendReturnsFirstResponse(env, slept, req, 1, false, 0);
    SendDispatches(env, slept, req, 1, false);
    PollSendSleeps(env, net, req, delay);
    if |rs| == 1 {
      PollStops(env, net, req, delay);
      ScheduleStep(net.sleeps, delay, s.net.sleeps, 0);
    } else {
      PollContinues(env, net, req, delay);
      PollReturnsFirstNon200(env, s.net, s.request, d, rs[1..], rest);
      ScheduleStep(net.sleeps, delay, Poll(env, s.net, s.request, d).net.sleeps, |rs| - 1);
    }
  }

  lemma CheckAccepted(env: Env, net: Net, response: Response)
    requires response.status == 202
    ensures var p := AcceptedPoll(env, net, response);
      CheckStatus(env, net, response) == if p.result.Err? then Run(p.net, p.result) else CheckStatus(env, p.net, p.result.value)
  {
  }

  /**
   * 200 returns the very response it was given; 410 and every status other
   * than 200, 201 and 202 raise, and no further request is made.
   */
  lemma CheckStatusImmediate(env: Env, net: Net, response: Response)
    ensures response.status == 200 ==> CheckStatus(env, net, response) == Run(net, Ok(response))
    ensures response.status == 410 ==> CheckStatus(env, net, response) == Run(net, Err(Gone))
    ensures response.status !in {200, 201, 202, 410} ==>
      CheckStatus(env, net, response) == Run(net, Err(UnknownStatus(response.status)))
  {
  }

  lemma {:induction false} CheckAdvances(env: Env, net: Net, response: Response)
    ensures Advances(net, CheckStatus(env, net, response).net)
    decreases |net.script|
  {
    if response.status == 202 {
      var p := AcceptedPoll(env, net, response);
      PollAdvances(env, net, CreateRequest(env.date, "GET", response.location), LongRequestDelay);
      CheckAccepted(env, net, response);
      if p.result.Ok? {
        CheckAdvances(env, p.net, p.result.value);
        AdvancesTransitive(net, p.net, CheckStatus(env, p.net, p.result.value).net);
      }
    } else if response.status == 201 {
      SendAdvances(env, net, CreateRequest(env.date, "DELETE", response.location), 1, false);
    }
  }

  lemma {:induction false} CheckKeepsIds(env: Env, net: Net, response: Response)
    requires IdsIncreasing(net)
    ensures IdsIncreasing(CheckStatus(env, net, response).net)
    decreases |net.script|
  {
    if response.status == 202 {
      var p := AcceptedPoll(env, net, response);
      PollKeepsIds(env, net, CreateRequest(env.date, "GET", response.location), LongRequestDelay);
      CheckAccepted(env, net, response);
      if p.result.Ok? {
        CheckKeepsIds(env, p.net, p.result.value);
      }
    } else if response.status == 201 {
      SendKeepsIds(env, net, CreateRequest(env.date, "DELETE", response.location), 1, false);
    }
  }

  /** A send_request that returns a response dispatched at least one request, the last of them with the stored method. */
  lemma SendOkDispatched(env: Env, net: Net, req: RequestData, retry: int, delayBeforeRetry: bool)
    requires Send(env, net, req, retry, delayBeforeRetry).result.Ok?
    ensures var s := Send(env, net, req, retry, delayBeforeRetry);
      |s.net.sent| > |net.sent| && s.net.sent[|s.net.sent| - 1].requestType == req.requestType
  {
    SendAdvances(env, net, req, retry, delayBeforeRetry);
    SendDispatches(env, net, req, retry, delayBeforeRetry);
  }

  /**
   * What a long request returns is either a 200 or the answer to a DELETE,
   * the last request it made: a 201's DELETE answer is returned unclassified.
   */
  lemma {:induction false} CheckStatusOutcome(env: Env, net: Net, response: Response)
    ensures EndsInOkOrDelete(net, CheckStatus(env, net, response))
    decreases |net.script|
  {
    var r := CheckStatus(env, net, response);
    if response.status == 202 {
      CheckAccepted(env, net, response);
      var p := AcceptedPoll(env, net, response);
      if p.result.Ok? {
        PollAdvances(env, net, CreateRequest(env.date, "GET", response.location), LongRequestDelay);
        CheckStatusOutcome(env, p.net, p.result.value);
        EndsInOkOrDeleteLater(net, p.net, CheckStatus(env, p.net, p.result.value));
      }
    } else if response.status == 201 {
      var req := CreateRequest(env.date, "DELETE", response.location);
      if Send(env, net, req, 1, false).result.Ok? {
        SendOkDispatched(env, net, req, 1, false);
      }
    } else {
      CheckStatusImmediate(env, net, response);
    }
  }

  /** A run that returns a response returns a 200, or the answer to a DELETE it made last. */
  predicate EndsInOkOrDelete(before: Net, r: Run)
  {
    r.result.Ok? ==>
      || r.result.value.status == 200
      || (|r.net.sent| > |before.sent| && r.net.sent[|r.net.sent| - 1].requestType == "DELETE")
  }

  lemma EndsInOkOrDeleteLater(before: Net, mid: Net, r: Run)
    requires |before.sent| <= |mid.sent| && EndsInOkOrDelete(mid, r)
    ensures EndsInOkOrDelete(before, r)
  {
  }

  /**
   * A 201 sends exactly one DELETE to the location (when the transport answers
   * it) and returns that answer whatever its status.
   */
  lemma CheckStatusCreated(env: Env, net: Net, response: Response, location: string)
    requires response.status == 201 && response.location == Some(location)
    requires net.script != [] && net.script[0].Delivered?
    ensures var r := CheckStatus(env, net, response);
      && r.result == Ok(net.script[0].response)
      && r.net.script == net.script[1..]
      && |r.net.sent| == |net.sent| + 1
      && r.net.sent[|net.sent|].requestType == "DELETE"
      && r.net.sent[|net.sent|].url == WithApiKey(location, env.viewKey)
  {
    var req := CreateRequest(env.date, "DELETE", response.location);
    SendReturnsFirstResponse(env, net, req, 1, false, 0);
    SendDispatches(env, net, req, 1, false);
  }

  /** send_long_request only moves the state forward. */
  lemma SendLongAdvances(env: Env, net: Net, requestType: string, url: Option<string>)
    ensures Advances(net, SendLong(env, net, requestType, url).net)
  {
    var s := Send(env, net, CreateRequest(env.date, requestType, url), 1, false);
    SendAdvances(env, net, CreateRequest(env.date, requestType, url), 1, false);
    if s.result.Ok? {
      CheckAdvances(env, s.net, s.result.value);
      AdvancesTransitive(net, s.net, CheckStatus(env, s.net, s.result.value).net);
    }
  }

  /** send_long_request keeps the ids of all dispatched requests increasing. */
  lemma SendLongKeepsIds(env: Env, net: Net, requestType: string, url: Option<string>)
    requires IdsIncreasing(net)
    ensures IdsIncreasing(SendLong(env, net, requestType, url).net)
  {
    var s := Send(env, net, CreateRequest(env.date, requestType, url), 1, false);
    SendKeepsIds(env, net, CreateRequest(env.date, requestType, url), 1, false);
    if s.result.Ok? {
      CheckKeepsIds(env, s.net, s.result.value);
    }
  }

  /** One poll round of a 202 sleeps 3 seconds before its GET. */
  lemma FirstPollSleep()
    ensures Schedule(LongRequestDelay, 1) == [3]
  {
  }

  /**
   * A 202 whose poll is answered 201 ends with a DELETE: one GET of the 202's
   * location after 3 seconds of sleep, then one DELETE of the 201's location,
   * whose answer is returned.
   */
  lemma AcceptedThenCreated(env: Env, net: Net, response: Response, first: Response, second: Response,
                            rest: seq<Outcome>, polled: string, created: string)
    requires response.status == 202 && response.location == Some(polled)
    requires first.status == 201 && first.location == Some(created)
    requires net.script == [Delivered(first), Delivered(second)] + rest
    ensures var r := CheckStatus(env, net, response);
      && r.result == Ok(second)
      && r.net.script == rest
      && |r.net.sent| == |net.sent| + 2
      && r.net.sent[|net.sent|].requestType == "GET"
      && r.net.sent[|net.sent|].url == WithApiKey(polled, env.viewKey)
      && r.net.sent[|net.sent| + 1].requestType == "DELETE"
      && r.net.sent[|net.sent| + 1].url == WithApiKey(created, env.viewKey)
      && r.net.sleeps == net.sleeps + [3]
  {
    var get := CreateRequest(env.date, "GET", response.location);
    assert net.script == Deliveries([first]) + ([Delivered(second)] + rest);
    PollReturnsFirstNon200(env, net, get, LongRequestDelay, [first], [Delivered(second)] + rest);
    PollDispatches(env, net, get, LongRequestDelay);
    FirstPollSleep();
    var p := AcceptedPoll(env, net, response);
    CheckAccepted(env, net, response);
    CheckStatusCreated(env, p.net, first, created);
    CheckAdvances(env, p.net, first);
    var r := CheckStatus(env, p.net, first);
    assert r.net.sent[|net.sent|] == r.net.sent[..|p.net.sent|][|net.sent|];
  }

  /**
   * A 202 whose poll is answered 202 again starts a fresh poll loop from the
   * initial delay: both loops sleep 3 seconds, and the 410 that ends the
   * second is raised.
   */
  lemma AcceptedTwiceRestartsDelay(env: Env, net: Net, response: Response, first: Response, second: Response,
                                   rest: seq<Outcome>, polled: string, again: string)
    requires response.status == 202 && response.location == Some(polled)
    requires first.status == 202 && first.location == Some(again)
    requires second.status == 410
    requires net.script == [Delivered(first), Delivered(second)] + rest
    ensures var r := CheckStatus(env, net, response);
      && r.result == Err(Gone)
      && r.net.script == rest
      && r.net.sleeps == net.sleeps + [3, 3]
  {
    var get := CreateRequest(env.date, "GET", response.location);
    assert net.script == Deliveries([first]) + ([Delivered(second)] + rest);
    PollReturnsFirstNon200(env, net, get, LongRequestDelay, [first], [Delivered(second)] + rest);
    FirstPollSleep();
    var p := AcceptedPoll(env, net, response);
    CheckAccepted(env, net, response);
    var get2 := CreateRequest(env.date, "GET", first.location);
    assert p.net.script == Deliveries([second]) + rest;
    PollReturnsFirstNon200(env, p.net, get2, LongRequestDelay, [second], rest);
    var p2 := AcceptedPoll(env, p.net, first);
    CheckAccepted(env, p.net, first);
    CheckStatusImmediate(env, p2.net, second);
  }

  /** What send_long_request returns is a 200, or the answer to the DELETE that was its last request. */
  lemma SendLongOutcome(env: Env, net: Net, requestType: string, url: Option<string>)
    ensures EndsInOkOrDelete(net, SendLong(env, net, requestType, url))
  {
    var s := Send(env, net, CreateRequest(env.date, requestType, url), 1, false);
    if s.result.Ok? {
      SendExtendsLog(env, net, CreateRequest(env.date, requestType, url), 1, false);
      CheckStatusOutcome(env, s.net, s.result.value);
      EndsInOkOrDeleteLater(net, s.net, CheckStatus(env, s.net, s.result.value));
    }
  }

}

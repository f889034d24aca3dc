/**
 * Where the handler finds its session: the server URL, batch id and session id
 * taken apart from the results-page URL, and the URL of the JSON summary built
 * back from them.
 */
module SessionUrl {
  import opened Wrappers
  import opened Decimal

  /** The path segment that separates the server URL from the batch and session ids. */
  const Marker := "/app/batches"

  datatype Reference = Reference(server: string, batch: string, session: string)

  predicate OccursAt(s: string, k: nat, pat: string)
  {
    k + |pat| <= |s| && s[k..k + |pat|] == pat
  }

  /** str.find from position `from` on: the first index where pat occurs, None for -1. */
  function FindFrom(s: string, pat: string, from: nat): (r: Option<nat>)
    requires from <= |s|
    ensures r.Some? ==> from <= r.value <= |s| && OccursAt(s, r.value, pat)
    ensures r.Some? ==> forall k :: from <= k < r.value ==> !OccursAt(s, k, pat)
    ensures r.None? ==> forall k :: from <= k <= |s| ==> !OccursAt(s, k, pat)
    decreases |s| - from
  {
    if OccursAt(s, from, pat) then Some(from)
    else if from == |s| then None
    else FindFrom(s, pat, from + 1)
  }

  function Find(s: string, pat: string): (r: Option<nat>)
    ensures r.Some? ==> OccursAt(s, r.value, pat) && forall k :: 0 <= k < r.value ==> !OccursAt(s, k, pat)
    ensures r.None? ==> forall k :: 0 <= k <= |s| ==> !OccursAt(s, k, pat)
  {
    FindFrom(s, pat, 0)
  }

  /**
   * _get_server_url: url[0:url.find("/app/batches")]. When the marker is absent
   * find gives -1 and the slice url[0:-1] drops the last character.
   */
  function ServerUrl(url: string): (server: string)
    ensures server <= url
  {
    match Find(url, Marker)
    case Some(k) => url[..k]
    case None => if url == [] then [] else url[..|url| - 1]
  }

  /**
   * What the tail `.*$` of the patterns accepts without DOTALL: `.` stops at a
   * line break and `$` also matches just before a final one, so a line break may
   * only be the last character.
   */
  predicate LineEnd(rest: string)
  {
    forall i :: 0 <= i < |rest| && rest[i] == '\n' ==> i == |rest| - 1
  }

  /** The prefix both patterns require literally: re.escape(server) + "/app/batches/". */
  function Head(url: string): string
  {
    ServerUrl(url) + Marker + "/"
  }

  /** The text after the digit run that starts t. */
  function AfterDigits(t: string): (rest: string)
    ensures t == LeadingDigits(t) + rest
  {
    t[|LeadingDigits(t)|..]
  }

  /** The text after the head, when the URL starts with it. */
  function Tail(url: string): Option<string>
  {
    var head := Head(url);
    if head <= url then Some(url[|head|..]) else None
  }

  /** _get_batch_id: the digit run right after server + "/app/batches/". */
  function BatchId(url: string): (r: Result<string>)
    ensures r.Ok? ==> r.value != [] && AllDigits(r.value)
    ensures r.Err? ==> r.error == NoMatch
  {
    match Tail(url)
    case None => Err(NoMatch)
    case Some(tail) =>
      var b := LeadingDigits(tail);
      if b == [] || !LineEnd(AfterDigits(tail)) then Err(NoMatch) else Ok(b)
  }

  /** _get_session_id: the digit run after server + "/app/batches/" + batch + "/". */
  function SessionId(url: string): (r: Result<string>)
    ensures r.Ok? ==> r.value != [] && AllDigits(r.value)
    ensures r.Err? ==> r.error == NoMatch
  {
    match Tail(url)
    case None => Err(NoMatch)
    case Some(tail) =>
      var b := LeadingDigits(tail);
      var after := AfterDigits(tail);
      if b == [] || after == [] || after[0] != '/' then Err(NoMatch)
      else
        var s := LeadingDigits(after[1..]);
        if s == [] || !LineEnd(AfterDigits(after[1..])) then Err(NoMatch) else Ok(s)
  }

  /** The three lookups of the constructor, in its order: server, session, batch. */
  function ParseReference(url: string): (r: Result<Reference>)
    ensures r.Err? ==> r.error == NoMatch
    ensures r.Ok? ==> && r.value.server <= url
                      && r.value.batch != [] && AllDigits(r.value.batch)
                      && r.value.session != [] && AllDigits(r.value.session)
  {
    var server := ServerUrl(url);
    match SessionId(url)
    case Err(e) => Err(e)
    case Ok(s) =>
      match BatchId(url)
      case Err(e) => Err(e)
      case Ok(b) => Ok(Reference(server, b, s))
  }

  /** A line break only at the very end stays so when text without one is put in front. */
  lemma LineEndPrepend(p: string, rest: string)
    requires forall i :: 0 <= i < |p| ==> p[i] != '\n'
    requires LineEnd(rest)
    ensures LineEnd(p + rest)
  {
    forall i | |p| <= i < |p + rest|
      ensures (p + rest)[i] == rest[i - |p|]
    {
    }
  }

  /** A "/" and a digit run in front of a tail the patterns accept give a tail they accept. */
  lemma SlashDigitsThenLineEnd(after: string)
    requires after != [] && after[0] == '/'
    requires LineEnd(AfterDigits(after[1..]))
    ensures LineEnd(after)
  {
    var digits := LeadingDigits(after[1..]);
    var p := [after[0]] + digits;
    assert after == p + AfterDigits(after[1..]);
    forall i | 0 <= i < |p|
      ensures p[i] != '\n'
    {
      if i > 0 {
        assert IsDigit(digits[i - 1]);
      }
    }
    LineEndPrepend(p, AfterDigits(after[1..]));
  }

  /** Whenever the session pattern matches, so does the batch pattern. */
  lemma SessionMatchImpliesBatchMatch(url: string)
    ensures SessionId(url).Ok? ==> BatchId(url).Ok?
  {
    if SessionId(url).Ok? {
      SlashDigitsThenLineEnd(AfterDigits(Tail(url).value));
    }
  }

  /** Only the session lookup can make the constructor fail. */
  lemma ParseFailsOnlyOnSession(url: string)
    ensures ParseReference(url).Err? <==> SessionId(url).Err?
  {
    SessionMatchImpliesBatchMatch(url);
  }

  /** No marker starts inside `server` when it is followed by the marker itself. */
  predicate MarkerFirstAfter(server: string)
  {
    forall p :: 0 <= p < |server| ==> !OccursAt(server + Marker, p, Marker)
  }

  /** The server part of a composed URL is what was put before the marker. */
  lemma ServerOfComposed(server: string, t: string)
    requires MarkerFirstAfter(server)
    ensures ServerUrl(server + Marker + t) == server
  {
    var url := server + Marker + t;
    assert url[|server|..|server| + |Marker|] == Marker;
    assert OccursAt(url, |server|, Marker);
    forall k | 0 <= k < |server|
      ensures !OccursAt(url, k, Marker)
    {
      assert !OccursAt(server + Marker, k, Marker);
      assert url[k..k + |Marker|] == (server + Marker)[k..k + |Marker|];
    }
    var f := Find(url, Marker);
    assert f.Some? && f.value == |server|;
    assert url[..|server|] == server;
  }

  /** Past the head, the ids are the digit runs the URL spells out. */
  lemma IdsAfterHead(url: string, batch: string, session: string, rest: string)
    requires Tail(url) == Some(batch + ("/" + (session + rest)))
    requires batch != [] && AllDigits(batch)
    requires session != [] && AllDigits(session)
    requires rest != [] ==> !IsDigit(rest[0])
    requires LineEnd(rest)
    ensures SessionId(url) == Ok(session) && BatchId(url) == Ok(batch)
  {
    var after := "/" + (session + rest);
    LeadingDigitsOfDigitsThen(batch, after);
    assert AfterDigits(batch + after) == after;
    assert after[1..] == session + rest;
    LeadingDigitsOfDigitsThen(session, rest);
    SessionMatchImpliesBatchMatch(url);
  }

  /** The part of a results URL that the three lookups read: server + "/app/batches/" + batch + "/" + session. */
  function Compose(r: Reference): string
  {
    r.server + Marker + "/" + r.batch + "/" + r.session
  }

  /** A results URL composed from a server, two digit runs and any tail the patterns accept decomposes into exactly those parts. */
  lemma ParseComposed(r: Reference, rest: string)
    requires MarkerFirstAfter(r.server)
    requires r.batch != [] && AllDigits(r.batch)
    requires r.session != [] && AllDigits(r.session)
    requires rest != [] ==> !IsDigit(rest[0])
    requires LineEnd(rest)
    ensures ParseReference(Compose(r) + rest) == Ok(r)
  {
    var url := Compose(r) + rest;
    var ids := r.batch + ("/" + (r.session + rest));
    ComposeAppend(r, rest);
    assert url == r.server + Marker + ("/" + ids);
    ServerOfComposed(r.server, "/" + ids);
    TailAfterHead(url, r.server + Marker + "/", ids);
    IdsAfterHead(url, r.batch, r.session, rest);
  }

  lemma TailAfterHead(url: string, head: string, ids: string)
    requires Head(url) == head && url == head + ids
    ensures Tail(url) == Some(ids)
  {
    assert url[|head|..] == ids;
  }

  /** What a successful session lookup has read: the head, the batch digits, "/", the session digits and a tail. */
  lemma SessionIdParts(url: string) returns (batch: string, rest: string)
    requires SessionId(url).Ok?
    ensures url == Head(url) + (batch + ("/" + (SessionId(url).value + rest)))
    ensures BatchId(url) == Ok(batch)
    ensures rest != [] ==> !IsDigit(rest[0])
    ensures LineEnd(rest)
  {
    var tail := Tail(url).value;
    batch := LeadingDigits(tail);
    var after := AfterDigits(tail);
    rest := AfterDigits(after[1..]);
    assert after == [after[0]] + after[1..];
    SessionMatchImpliesBatchMatch(url);
  }

  lemma ComposeAppend(r: Reference, rest: string)
    ensures Compose(r) + rest == (r.server + Marker + "/") + (r.batch + ("/" + (r.session + rest)))
  {
  }

  /** Conversely, a successful parse means the URL is composed of the parts it returns, followed by a tail the patterns accept. */
  lemma ParseDecomposes(url: string) returns (rest: string)
    requires ParseReference(url).Ok?
    ensures var r := ParseReference(url).value;
      && url == Compose(r) + rest
      && (rest != [] ==> !IsDigit(rest[0]))
      && LineEnd(rest)
      && r.batch != [] && AllDigits(r.batch)
      && r.session != [] && AllDigits(r.session)
      && MarkerFirstAfter(r.server)
  {
    var r := ParseReference(url).value;
    ServerBeforeFirstMarker(url);
    var batch;
    batch, rest := SessionIdParts(url);
    assert r == Reference(ServerUrl(url), batch, SessionId(url).value);
    ComposeAppend(r, rest);
  }

  /** When the URL starts with its head, the server part holds no marker: the one after it is the first. */
  lemma ServerBeforeFirstMarker(url: string)
    requires Tail(url).Some?
    ensures MarkerFirstAfter(ServerUrl(url))
  {
    var server := ServerUrl(url);
    var sm := server + Marker;
    assert Head(url) == sm + "/";
    assert url[..|sm|] == sm;
    assert url[|server|..|sm|] == Marker;
    assert OccursAt(url, |server|, Marker);
    var k := Find(url, Marker).value;
    assert server == url[..k];
    forall p | 0 <= p < |server|
      ensures !OccursAt(sm, p, Marker)
    {
      assert !OccursAt(url, p, Marker);
      assert sm[p..p + |Marker|] == url[p..p + |Marker|];
    }
  }

  /** A URL without "/app/batches" is refused. */
  lemma NoMarkerNoMatch(url: string)
    requires Find(url, Marker).None?
    ensures ParseReference(url) == Err(NoMatch)
  {
    var server := ServerUrl(url);
    assert |Head(url)| > |url|;
  }

  /** A character the ASCII codec keeps. */
  predicate IsAscii(c: char) { c as int < 128 }

  /** str.encode('ascii', 'ignore'): every non-ASCII character is dropped. */
  function AsciiOnly(s: string): (r: string)
    ensures |r| <= |s|
    ensures forall i :: 0 <= i < |r| ==> IsAscii(r[i])
  {
    if s == [] then [] else (if IsAscii(s[0]) then [s[0]] else []) + AsciiOnly(s[1..])
  }

  lemma {:induction false} AsciiOnlyAppend(a: string, b: string)
    ensures AsciiOnly(a + b) == AsciiOnly(a) + AsciiOnly(b)
    decreases |a|
  {
    if a != [] {
      assert (a + b)[1..] == a[1..] + b;
      AsciiOnlyAppend(a[1..], b);
    } else {
      assert a + b == b;
    }
  }

  lemma {:induction false} AsciiOnlyKeepsAscii(s: string)
    requires forall c :: c in s ==> IsAscii(c)
    ensures AsciiOnly(s) == s
    decreases |s|
  {
    if s != [] {
      assert s[0] in s;
      forall c | c in s[1..]
        ensures IsAscii(c)
      {
        var i :| 0 <= i < |s[1..]| && s[1..][i] == c;
        assert s[i + 1] == c;
      }
      AsciiOnlyKeepsAscii(s[1..]);
    }
  }

  /** get_test_json: the URL of the JSON summary, as the bytes handed to requests.get. */
  function TestJsonUrl(ref: Reference, viewKey: string): (u: string)
    ensures forall i :: 0 <= i < |u| ==> IsAscii(u[i])
    ensures |u| <= |ref.server| + |ref.batch| + |ref.session| + |viewKey| + 44
  {
    AsciiOnly(ref.server + "/api/sessions/batches/" + ref.batch + "/" + ref.session
              + "/?apiKey=" + viewKey + "&format=json")
  }

  /** Appending text the filter keeps commutes with the filter. */
  lemma AsciiOnlyKeepsSuffix(x: string, y: string)
    requires forall c :: c in y ==> IsAscii(c)
    ensures AsciiOnly(x + y) == AsciiOnly(x) + y
  {
    AsciiOnlyKeepsAscii(y);
    AsciiOnlyAppend(x, y);
  }

  /** The ASCII filter goes through the summary URL piece by piece: only the server and the key can lose characters. */
  lemma SummaryPathParts(ref: Reference, viewKey: string, p1: string, p2: string, p3: string, p4: string)
    requires AllDigits(ref.batch) && AllDigits(ref.session)
    requires p1 == "/api/sessions/batches/" && p2 == "/" && p3 == "/?apiKey=" && p4 == "&format=json"
    ensures AsciiOnly(ref.server + p1 + ref.batch + p2 + ref.session + p3 + viewKey + p4)
            == AsciiOnly(ref.server) + p1 + ref.batch + p2 + ref.session + p3 + AsciiOnly(viewKey) + p4
  {
    assert forall c :: c in p1 ==> IsAscii(c);
    assert forall c :: c in p2 ==> IsAscii(c);
    assert forall c :: c in p3 ==> IsAscii(c);
    assert forall c :: c in p4 ==> IsAscii(c);
    var x1 := ref.server + p1;
    AsciiOnlyKeepsSuffix(ref.server, p1);
    var x2 := x1 + ref.batch;
    AsciiOnlyKeepsSuffix(x1, ref.batch);
    var x3 := x2 + p2;
    AsciiOnlyKeepsSuffix(x2, p2);
    var x4 := x3 + ref.session;
    AsciiOnlyKeepsSuffix(x3, ref.session);
    var x5 := x4 + p3;
    AsciiOnlyKeepsSuffix(x4, p3);
    AsciiOnlyAppend(x5, viewKey);
    AsciiOnlyKeepsSuffix(x5 + viewKey, p4);
  }


  /**
   * For ids taken from a results URL only the server part and the view key can
   * lose characters to the ASCII encoding; everything else is kept as written.
   */
  lemma TestJsonUrlParts(ref: Reference, viewKey: string)
    requires AllDigits(ref.batch) && AllDigits(ref.session)
    ensures TestJsonUrl(ref, viewKey)
            == AsciiOnly(ref.server) + "/api/sessions/batches/" + ref.batch + "/" + ref.session
               + "/?apiKey=" + AsciiOnly(viewKey) + "&format=json"
  {
    SummaryPathParts(ref, viewKey, "/api/sessions/batches/", "/", "/?apiKey=", "&format=json");
  }

}

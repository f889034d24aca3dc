/**
 * The result document's step lists: the pass/fail/new/missing rule of
 * calculate_step_results, get_image_id, and which (url, file) downloads each
 * download_* operation makes, in order.
 */
module StepResults {
  import opened Wrappers
  import opened Decimal
  import opened SessionUrl

  datatype ResultStatus = Passed | Failed | New | Missing

  datatype Image = Image(id: string)

  /** A non-null entry of expectedAppOutput or actualAppOutput. */
  datatype AppOutput = AppOutput(isMatching: bool, image: Option<Image>)

  /** The decoded JSON summary, reduced to the two step lists the handler reads; None stands for JSON null. */
  datatype TestJson = TestJson(expectedAppOutput: seq<Option<AppOutput>>, actualAppOutput: seq<Option<AppOutput>>)

  /** The two keys get_image_id is called with. */
  datatype ImageType = ExpectedAppOutput | ActualAppOutput

  function Outputs(doc: TestJson, t: ImageType): seq<Option<AppOutput>>
  {
    match t
    case ExpectedAppOutput => doc.expectedAppOutput
    case ActualAppOutput => doc.actualAppOutput
  }

  /**
   * The body of calculate_step_results's loop at index i. It reads actual[i]
   * first, and expected[i] only when actual[i] is not null; reading past the end
   * of either list raises IndexError.
   */
  function StepStatus(expected: seq<Option<AppOutput>>, actual: seq<Option<AppOutput>>, i: nat): (r: Result<ResultStatus>)
    ensures r.Err? <==> i >= |actual| || (actual[i].Some? && i >= |expected|)
    ensures r.Err? ==> r.error == IndexOutOfRange
    ensures r == Ok(Missing) <==> i < |actual| && actual[i].None?
    ensures r == Ok(New) <==> i < |actual| && actual[i].Some? && i < |expected| && expected[i].None?
    ensures r == Ok(Passed) <==>
      i < |actual| && i < |expected| && actual[i].Some? && expected[i].Some? && actual[i].value.isMatching
    ensures r == Ok(Failed) <==>
      i < |actual| && i < |expected| && actual[i].Some? && expected[i].Some? && !actual[i].value.isMatching
  {
    if i >= |actual| then Err(IndexOutOfRange)
    else if actual[i].None? then Ok(Missing)
    else if i >= |expected| then Err(IndexOutOfRange)
    else if expected[i].None? then Ok(New)
    else if actual[i].value.isMatching then Ok(Passed)
    else Ok(Failed)
  }

  /** The step lists can be walked for max(len(expected), len(actual)) steps without an IndexError. */
  predicate StepsReadable(doc: TestJson)
  {
    var e, a := doc.expectedAppOutput, doc.actualAppOutput;
    |e| <= |a| && forall i :: |e| <= i < |a| ==> a[i].None?
  }

  /** What calculate_step_results returns or raises, stated over the whole document. */
  function StepResults(doc: TestJson): (r: Result<seq<ResultStatus>>)
    ensures r.Err? ==> r.error == IndexOutOfRange
  {
    var e, a := doc.expectedAppOutput, doc.actualAppOutput;
    if StepsReadable(doc) then Ok(seq(|a|, i requires 0 <= i < |a| => StepStatus(e, a, i).value))
    else Err(IndexOutOfRange)
  }

  /**
   * The closed form agrees with the loop: the call raises exactly when some index
   * below max(len(expected), len(actual)) raises, and otherwise yields one status
   * per index, each by the rule.
   */
  lemma StepResultsByIndex(doc: TestJson)
    ensures var e, a := doc.expectedAppOutput, doc.actualAppOutput;
      var n := Max(|e|, |a|);
      && (StepResults(doc).Err? <==> exists i :: 0 <= i < n && StepStatus(e, a, i).Err?)
      && (StepResults(doc).Ok? ==>
            |StepResults(doc).value| == n
            && forall i :: 0 <= i < n ==> StepStatus(e, a, i) == Ok(StepResults(doc).value[i]))
  {
    var e, a := doc.expectedAppOutput, doc.actualAppOutput;
    var n := Max(|e|, |a|);
    if !StepsReadable(doc) {
      if |e| > |a| {
        assert StepStatus(e, a, |a|).Err?;
      } else {
        var i :| |e| <= i < |a| && a[i].Some?;
        assert StepStatus(e, a, i).Err?;
      }
    }
  }

  /** calculate_step_results: the loop that appends one status per step. */
  method CalculateStepResults(doc: TestJson) returns (r: Result<seq<ResultStatus>>)
    ensures r == StepResults(doc)
  {
    var expected, actual := doc.expectedAppOutput, doc.actualAppOutput;
    var steps := Max(|expected|, |actual|);
    var statuses: seq<ResultStatus> := [];
    for i := 0 to steps
      invariant |statuses| == i
      invariant forall j :: 0 <= j < i ==> StepStatus(expected, actual, j) == Ok(statuses[j])
    {
      if i >= |actual| {
        StepResultsByIndex(doc);
        return Err(IndexOutOfRange);
      }
      if actual[i].None? {
        statuses := statuses + [Missing];
      } else if i >= |expected| {
        StepResultsByIndex(doc);
        return Err(IndexOutOfRange);
      } else if expected[i].None? {
        statuses := statuses + [New];
      } else if actual[i].value.isMatching {
        statuses := statuses + [Passed];
      } else {
        statuses := statuses + [Failed];
      }
    }
    StepResultsByIndex(doc);
    assert StepStatus(expected, actual, steps).Err?;
    assert StepResults(doc).Ok?;
    assert StepResults(doc).value == statuses;
    r := Ok(statuses);
  }

  /** The image id of an entry that is inside its list: None when the entry or its image is null. */
  function ImageIdAt(outputs: seq<Option<AppOutput>>, step: nat): Option<string>
    requires step < |outputs|
  {
    match outputs[step]
    case None => None
    case Some(o) =>
      match o.image
      case None => None
      case Some(img) => Some(img.id)
  }

  /**
   * get_image_id: test_JSON[image_type][step]['image']['id']. A null entry or
   * image raises TypeError, which is caught and gives None; a step past the end
   * of the list raises IndexError, which is not caught.
   */
  function GetImageId(doc: TestJson, t: ImageType, step: nat): (r: Result<Option<string>>)
    ensures r.Err? <==> step >= |Outputs(doc, t)|
    ensures r.Err? ==> r.error == IndexOutOfRange
    ensures r == Ok(None) <==>
      step < |Outputs(doc, t)| && (Outputs(doc, t)[step].None? || Outputs(doc, t)[step].value.image.None?)
    ensures r.Ok? && r.value.Some? ==>
      Outputs(doc, t)[step] == Some(AppOutput(Outputs(doc, t)[step].value.isMatching, Some(Image(r.value.value))))
  {
    var outputs := Outputs(doc, t);
    if step < |outputs| then Ok(ImageIdAt(outputs, step)) else Err(IndexOutOfRange)
  }

  /** One image download: the URL fetched and the file it is written to. */
  datatype Fetch = Fetch(url: string, path: string)

  /** What a download_* operation does: these downloads in order, then this exception, if any. */
  datatype Plan = Plan(fetches: seq<Fetch>, failure: Option<Error>)

  /** prepare_path: the directory a session's images go to. */
  function SessionDir(base: string, ref: Reference): (dir: string)
    ensures base + "/" <= dir
  {
    base + "/" + ref.batch + "/" + ref.session
  }

  /** Sessions whose ids are digit runs get different directories under the same base. */
  lemma SessionDirDistinct(base: string, a: Reference, b: Reference)
    requires AllDigits(a.batch) && AllDigits(a.session)
    requires AllDigits(b.batch) && AllDigits(b.session)
    ensures SessionDir(base, a) == SessionDir(base, b) ==> a.batch == b.batch && a.session == b.session
  {
    var head := base + "/";
    var ta, tb := a.batch + ("/" + a.session), b.batch + ("/" + b.session);
    assert SessionDir(base, a) == head + ta;
    assert SessionDir(base, b) == head + tb;
    if head + ta == head + tb {
      assert ta == (head + ta)[|head|..];
      assert tb == (head + tb)[|head|..];
      BatchSlashSession(a.batch, a.session, b.batch, b.session);
    }
  }

  /** `batch/session` with a digit-run batch splits at its first slash only. */
  lemma BatchSlashSession(b1: string, s1: string, b2: string, s2: string)
    requires AllDigits(b1) && AllDigits(b2)
    requires b1 + ("/" + s1) == b2 + ("/" + s2)
    ensures b1 == b2 && s1 == s2
  {
    LeadingDigitsOfDigitsThen(b1, "/" + s1);
    LeadingDigitsOfDigitsThen(b2, "/" + s2);
    assert s1 == (b1 + ("/" + s1))[|b1| + 1..];
    assert s2 == (b2 + ("/" + s2))[|b2| + 1..];
  }


  /** The numbered file of a step: diff_step_{i+1}.jpg, current_step_{i+1}.jpg, baseline_step_{i+1}.jpg. */
  function StepPath(dir: string, kind: string, step: nat): string
  {
    dir + "/" + kind + "_step_" + NatToString(step + 1) + ".jpg"
  }

  function DiffUrl(ref: Reference, step: nat): string
  {
    ref.server + "/api/sessions/batches/" + ref.batch + "/" + ref.session + "/steps/" + NatToString(step + 1) + "/diff"
  }

  function ImageUrl(server: string, id: string): string
  {
    server + "/api/images/" + id
  }

  /** Different steps write different files. */
  lemma StepPathInjective(dir: string, kind: string, i: nat, j: nat)
    ensures StepPath(dir, kind, i) == StepPath(dir, kind, j) ==> i == j
  {
    if StepPath(dir, kind, i) == StepPath(dir, kind, j) {
      NumberedNameInjective(dir + "/" + kind + "_step_", i + 1, j + 1, ".jpg");
    }
  }

  /**
   * The downloads a per-step loop makes over its first n steps: step i fetches
   * urls[i] into its numbered file when there is one, and nothing otherwise.
   */
  function Selected(dir: string, kind: string, urls: seq<Option<string>>, n: nat): seq<Fetch>
    requires n <= |urls|
  {
    if n == 0 then []
    else
      Selected(dir, kind, urls, n - 1)
      + match urls[n - 1]
        case None => []
        case Some(u) => [Fetch(u, StepPath(dir, kind, n - 1))]
  }

  /**
   * The loop fetches exactly the steps that have a URL, each into its own file:
   * every such step is fetched, every fetch belongs to such a step, and no file
   * is written twice.
   */
  lemma {:induction false} SelectedExactly(dir: string, kind: string, urls: seq<Option<string>>, n: nat)
    requires n <= |urls|
    ensures forall i :: 0 <= i < n && urls[i].Some? ==>
      Fetch(urls[i].value, StepPath(dir, kind, i)) in Selected(dir, kind, urls, n)
    ensures forall f :: f in Selected(dir, kind, urls, n) ==>
      exists i :: 0 <= i < n && urls[i].Some? && f == Fetch(urls[i].value, StepPath(dir, kind, i))
    ensures forall a, b :: 0 <= a < b < |Selected(dir, kind, urls, n)| ==>
      Selected(dir, kind, urls, n)[a].path != Selected(dir, kind, urls, n)[b].path
  {
    if n > 0 {
      SelectedExactly(dir, kind, urls, n - 1);
      var prev := Selected(dir, kind, urls, n - 1);
      var s := Selected(dir, kind, urls, n);
      if urls[n - 1].Some? {
        var last := Fetch(urls[n - 1].value, StepPath(dir, kind, n - 1));
        assert s == prev + [last];
        forall a | 0 <= a < |prev|
          ensures prev[a].path != last.path
        {
          assert prev[a] in prev;
          var i :| 0 <= i < n - 1 && urls[i].Some? && prev[a] == Fetch(urls[i].value, StepPath(dir, kind, i));
          StepPathInjective(dir, kind, i, n - 1);
        }
      } else {
        assert s == prev;
      }
    }
  }

  /** A step that has no URL gets no file. */
  lemma SelectedSkips(dir: string, kind: string, urls: seq<Option<string>>, n: nat, i: nat)
    requires n <= |urls| && i < |urls| && urls[i].None?
    ensures forall f :: f in Selected(dir, kind, urls, n) ==> f.path != StepPath(dir, kind, i)
  {
    SelectedExactly(dir, kind, urls, n);
    forall f | f in Selected(dir, kind, urls, n)
      ensures f.path != StepPath(dir, kind, i)
    {
      var j :| 0 <= j < n && urls[j].Some? && f == Fetch(urls[j].value, StepPath(dir, kind, j));
      StepPathInjective(dir, kind, i, j);
    }
  }

  /** download_diffs: a step has a diff to fetch exactly when its status is FAILED. */
  function DiffUrls(ref: Reference, statuses: seq<ResultStatus>): (urls: seq<Option<string>>)
    ensures |urls| == |statuses|
  {
    seq(|statuses|, i requires 0 <= i < |statuses| =>
      if statuses[i] == Failed then Some(DiffUrl(ref, i)) else None)
  }

  /** download_current_images / download_baseline_images: a step has an image to fetch when it has an image id. */
  function ImageUrls(server: string, outputs: seq<Option<AppOutput>>): (urls: seq<Option<string>>)
    ensures |urls| == |outputs|
  {
    seq(|outputs|, i requires 0 <= i < |outputs| =>
      match ImageIdAt(outputs, i)
      case None => None
      case Some(id) => Some(ImageUrl(server, id)))
  }

  /** A step has an image URL exactly when it has an image id. */
  lemma ImageUrlPresent(server: string, outputs: seq<Option<AppOutput>>, i: nat)
    requires i < |outputs|
    ensures ImageUrls(server, outputs)[i].Some? <==> ImageIdAt(outputs, i).Some?
  {
  }

  function KindName(t: ImageType): string
  {
    match t
    case ExpectedAppOutput => "baseline"
    case ActualAppOutput => "current"
  }

  /** download_diffs: nothing is fetched when the statuses cannot be computed; otherwise one diff per FAILED step. */
  function DiffPlan(ref: Reference, doc: TestJson, base: string): (p: Plan)
    ensures p.failure.Some? <==> StepResults(doc).Err?
    ensures p.failure.Some? ==> p.failure.value == IndexOutOfRange && p.fetches == []
  {
    match StepResults(doc)
    case Err(e) => Plan([], Some(e))
    case Ok(st) => Plan(Selected(SessionDir(base, ref), "diff", DiffUrls(ref, st), |st|), None)
  }

  /**
   * download_current_images / download_baseline_images: the loop runs over
   * test_results.steps, fetching each present image, and raises IndexError on
   * the first step past the end of the list.
   */
  function ImagePlan(ref: Reference, doc: TestJson, t: ImageType, steps: nat, base: string): (p: Plan)
    ensures p.failure.Some? <==> steps > |Outputs(doc, t)|
    ensures p.failure.Some? ==> p.failure.value == IndexOutOfRange
  {
    var outputs := Outputs(doc, t);
    Plan(Selected(SessionDir(base, ref), KindName(t), ImageUrls(ref.server, outputs), Min(steps, |outputs|)),
         if steps > |outputs| then Some(IndexOutOfRange) else None)
  }

  /** download_diffs fetches the diff of every FAILED step into diff_step_{i+1}.jpg, and writes no file for any other step. */
  lemma DiffPlanSelectsFailed(ref: Reference, doc: TestJson, base: string, i: nat)
    requires StepResults(doc).Ok? && i < |StepResults(doc).value|
    ensures var st := StepResults(doc).value;
      var p := DiffPlan(ref, doc, base);
      var dir := SessionDir(base, ref);
      && p.failure.None?
      && (st[i] == Failed ==> Fetch(DiffUrl(ref, i), StepPath(dir, "diff", i)) in p.fetches)
      && (st[i] != Failed ==> forall f :: f in p.fetches ==> f.path != StepPath(dir, "diff", i))
  {
    var st := StepResults(doc).value;
    var urls := DiffUrls(ref, st);
    var dir := SessionDir(base, ref);
    SelectedExactly(dir, "diff", urls, |st|);
    if st[i] != Failed {
      SelectedSkips(dir, "diff", urls, |st|, i);
    }
  }

  /** download_*_images fetches the image of every step that has an image id, and writes no file for the others. */
  lemma ImagePlanSelectsPresent(ref: Reference, doc: TestJson, t: ImageType, steps: nat, base: string, i: nat)
    requires i < steps && i < |Outputs(doc, t)|
    ensures var p := ImagePlan(ref, doc, t, steps, base);
      var dir := SessionDir(base, ref);
      var id := ImageIdAt(Outputs(doc, t), i);
      && (id.Some? ==> Fetch(ImageUrl(ref.server, id.value), StepPath(dir, KindName(t), i)) in p.fetches)
      && (id.None? ==> forall f :: f in p.fetches ==> f.path != StepPath(dir, KindName(t), i))
  {
    var outputs := Outputs(doc, t);
    var urls := ImageUrls(ref.server, outputs);
    var dir := SessionDir(base, ref);
    var n := Min(steps, |outputs|);
    SelectedExactly(dir, KindName(t), urls, n);
    if ImageIdAt(outputs, i).None? {
      SelectedSkips(dir, KindName(t), urls, n, i);
    }
  }
}

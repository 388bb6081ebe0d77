/**
  Turning the decoded response of the matching service into the list of job
  matches the page shows: first find the raw list by trying the recognised
  payload shapes in a fixed order, then give every record all six fields.
 */
module Normaliser {
  import opened Basics
  import opened Json
  import opened Errors

  /** A normalised job match. Each field holds whatever JSON value the `||`
      defaulting picked, so a truthy value of an unexpected type passes through. */
  datatype JobMatch = JobMatch(
    jobTitle: JsValue,
    semanticScore: JsValue,
    score: JsValue,
    reasoning: JsValue,
    skillGaps: JsValue,
    strengths: JsValue)

  const UnknownTitle := Str("Unknown Position")
  const NoAnalysis := Str("No analysis provided")
  const ZeroScore := Num(0)
  const EmptyList := Arr([])

  /** Every field of the record is present. */
  predicate Complete(m: JobMatch) {
    && m.jobTitle != Absent && m.semanticScore != Absent && m.score != Absent
    && m.reasoning != Absent && m.skillGaps != Absent && m.strengths != Absent
  }

  /** The field `key` of the normalised record is the job's own value when that
      is truthy, and the default otherwise. */
  predicate Defaulted(job: JsValue, key: string, field: JsValue, default: JsValue)
    requires !Nullish(job)
  {
    if Truthy(Get(job, key)) then field == Get(job, key) else field == default
  }

  /** The mapping callback applied to each raw record; reading a field of a
      `null` element throws. */
  function NormaliseJob(job: JsValue): (r: Result<JobMatch, Failure>)
    ensures r.Err? <==> Nullish(job)
    ensures r.Err? ==> r.error == NullAccess
    ensures r.Ok? ==> Complete(r.value)
    ensures r.Ok? ==>
      && Defaulted(job, "job_title", r.value.jobTitle, UnknownTitle)
      && Defaulted(job, "reasoning", r.value.reasoning, NoAnalysis)
      && Defaulted(job, "skill_gaps", r.value.skillGaps, EmptyList)
      && Defaulted(job, "strengths", r.value.strengths, EmptyList)
  {
    if Nullish(job) then
      Err(NullAccess)
    else
      Ok(JobMatch(
        jobTitle := Or(Get(job, "job_title"), UnknownTitle),
        semanticScore := Or(Or(Get(job, "semantic_score"), Get(job, "score")), ZeroScore),
        score := Or(Or(Get(job, "score"), Get(job, "semantic_score")), ZeroScore),
        reasoning := Or(Get(job, "reasoning"), NoAnalysis),
        skillGaps := Or(Get(job, "skill_gaps"), EmptyList),
        strengths := Or(Get(job, "strengths"), EmptyList)))
  }

  /** How the two score fields relate after normalisation: when at most one of
      them is truthy both outputs carry it (or 0 when neither is); when both
      are truthy each keeps its own value, so they may differ. */
  lemma ScoresAgree(job: JsValue)
    requires !Nullish(job)
    ensures var m := NormaliseJob(job).value;
      var s, ss := Get(job, "score"), Get(job, "semantic_score");
      && (Truthy(s) && !Truthy(ss) ==> m.score == s && m.semanticScore == s)
      && (!Truthy(s) && Truthy(ss) ==> m.score == ss && m.semanticScore == ss)
      && (!Truthy(s) && !Truthy(ss) ==> m.score == ZeroScore && m.semanticScore == ZeroScore)
      && (Truthy(s) && Truthy(ss) ==> m.score == s && m.semanticScore == ss)
      && (m.score == m.semanticScore <==> !Truthy(s) || !Truthy(ss) || s == ss)
  {
  }

  /** `jobs.map(...)`: same length and order, or the failure of the first
      element whose fields cannot be read. */
  function NormaliseAll(jobs: seq<JsValue>): (r: Result<seq<JobMatch>, Failure>)
    ensures r.Ok? <==> forall i :: 0 <= i < |jobs| ==> !Nullish(jobs[i])
    ensures r.Err? ==> r.error == NullAccess
    ensures r.Ok? ==> |r.value| == |jobs|
    ensures r.Ok? ==> forall i :: 0 <= i < |jobs| ==> NormaliseJob(jobs[i]) == Ok(r.value[i])
  {
    if |jobs| == 0 then
      Ok([])
    else
      match NormaliseJob(jobs[0])
      case Err(e) => Err(e)
      case Ok(m) =>
        match NormaliseAll(jobs[1..])
        case Err(e) => Err(e)
        case Ok(ms) =>
          assert forall i :: 1 <= i < |jobs| ==> jobs[i] == jobs[1..][i - 1];
          Ok([m] + ms)
  }

  // ---------------------------------------------------------------------
  // Payload shapes
  // ---------------------------------------------------------------------

  /** The payload is itself an array. */
  function TopLevelArray(data: JsValue): Option<seq<JsValue>> {
    if data.Arr? then Some(data.items) else None
  }

  /** `data[key] && Array.isArray(data[key])`. */
  function ArrayUnder(data: JsValue, key: string): Option<seq<JsValue>>
    requires !Nullish(data)
  {
    var v := Get(data, key);
    if Truthy(v) && v.Arr? then Some(v.items) else None
  }

  /** A single match object: a truthy title and at least one score field that
      is not `undefined` (an explicit `0` or `null` score counts). */
  predicate LooksLikeSingleMatch(data: JsValue)
    requires !Nullish(data)
    ensures LooksLikeSingleMatch(data) ==> data.Obj? && "job_title" in data.fields
  {
    Truthy(Get(data, "job_title"))
      && (Get(data, "semantic_score") != Absent || Get(data, "score") != Absent)
  }

  function SingleMatch(data: JsValue): Option<seq<JsValue>>
    requires !Nullish(data)
  {
    if LooksLikeSingleMatch(data) then Some([data]) else None
  }

  /** The recognised shapes in the order they are tried. */
  function ShapeMatchers(): seq<JsValue --> Option<seq<JsValue>>> {
    [ TopLevelArray,
      (d: JsValue) requires !Nullish(d) => ArrayUnder(d, "results"),
      (d: JsValue) requires !Nullish(d) => ArrayUnder(d, "matches"),
      (d: JsValue) requires !Nullish(d) => SingleMatch(d) ]
  }

  /** The result of the first matcher in `ms` that applies to `data`. */
  function FirstMatch(ms: seq<JsValue --> Option<seq<JsValue>>>, data: JsValue): (r: Option<seq<JsValue>>)
    requires forall i :: 0 <= i < |ms| ==> ms[i].requires(data)
    ensures r.Some? ==> exists i :: (0 <= i < |ms| && ms[i](data) == r
                                     && forall j :: 0 <= j < i ==> ms[j](data).None?)
    ensures r.None? ==> forall i :: 0 <= i < |ms| ==> ms[i](data).None?
  {
    if |ms| == 0 then
      None
    else if ms[0](data).Some? then
      ms[0](data)
    else
      var r := FirstMatch(ms[1..], data);
      assert forall i :: 1 <= i < |ms| ==> ms[i] == ms[1..][i - 1];
      r
  }

  /** The `if`/`else if` chain that picks the raw match list. Reading a field
      of a `null` payload throws before any shape is tried. */
  function ExtractList(data: JsValue): (r: Result<seq<JsValue>, Failure>)
    ensures Nullish(data) <==> r == Err(NullAccess)
    ensures r.Err? ==> r.error == NullAccess || r.error == BadShape
    ensures data.Arr? ==> r == Ok(data.items)
    ensures r == Err(BadShape) ==> !Nullish(data) && !data.Arr? && !LooksLikeSingleMatch(data)
    ensures r.Ok? && !data.Arr? && !Get(data, "results").Arr? && !Get(data, "matches").Arr? ==> r.value == [data]
  {
    if Nullish(data) then
      Err(NullAccess)
    else if data.Arr? then
      Ok(data.items)
    else if Truthy(Get(data, "results")) && Get(data, "results").Arr? then
      Ok(Get(data, "results").items)
    else if Truthy(Get(data, "matches")) && Get(data, "matches").Arr? then
      Ok(Get(data, "matches").items)
    else if LooksLikeSingleMatch(data) then
      Ok([data])
    else
      Err(BadShape)
  }

  /** The `if` chain is exactly "first matching shape, in priority order". */
  lemma ExtractListIsFirstMatch(data: JsValue)
    requires !Nullish(data)
    ensures ExtractList(data) ==
      match FirstMatch(ShapeMatchers(), data)
      case Some(xs) => Ok(xs)
      case None => Err(BadShape)
  {
    var ms := ShapeMatchers();
    assert ms[0](data) == TopLevelArray(data);
    assert ms[1](data) == ArrayUnder(data, "results");
    assert ms[2](data) == ArrayUnder(data, "matches");
    assert ms[3](data) == SingleMatch(data);
    assert ms[1..][1..][1..][1..] == [];
  }

  /** Priority between shapes a payload may match at once: an array under
      `results` beats one under `matches`, and both beat the single-object
      reading even when the payload also has a title and a score. */
  lemma ShapePriority(data: JsValue)
    requires data.Obj?
    ensures Get(data, "results").Arr? ==> ExtractList(data) == Ok(Get(data, "results").items)
    ensures !Get(data, "results").Arr? && Get(data, "matches").Arr? ==>
              ExtractList(data) == Ok(Get(data, "matches").items)
    ensures !Get(data, "results").Arr? && !Get(data, "matches").Arr? ==>
              (ExtractList(data).Ok? <==> LooksLikeSingleMatch(data))
  {
  }

  /** What the handler ends up with for a decoded payload. */
  datatype Verdict =
    | Matches(records: seq<JobMatch>)   // shown as the result list
    | NoMatches                         // an empty list: shown as guidance
    | Failed(failure: Failure)          // thrown, shown as an error

  function Normalise(data: JsValue): (v: Verdict)
    ensures v.Matches? ==> |v.records| > 0
    ensures v.NoMatches? <==> ExtractList(data) == Ok([])
    ensures v.Matches? <==> ExtractList(data).Ok? && |ExtractList(data).value| > 0
                            && NormaliseAll(ExtractList(data).value).Ok?
    ensures v.Matches? ==> |v.records| == |ExtractList(data).value|
    ensures v.Matches? ==> forall i :: 0 <= i < |v.records| ==> Complete(v.records[i])
    ensures v.Matches? ==> NormaliseAll(ExtractList(data).value) == Ok(v.records)
    ensures v.Failed? ==> v.failure == (if ExtractList(data).Err? then ExtractList(data).error else NullAccess)
  {
    match ExtractList(data)
    case Err(f) => Failed(f)
    case Ok(jobs) =>
      if |jobs| == 0 then
        NoMatches
      else
        match NormaliseAll(jobs)
        case Err(f) => Failed(f)
        case Ok(records) => Matches(records)
  }

  /** Example payloads and what the handler does with them. */
  lemma NormaliseExamples()
    ensures Normalise(Arr([])) == NoMatches
    ensures Normalise(Arr([Obj(map["job_title" := Str("Engineer"), "score" := Num(75)])]))
      == Matches([JobMatch(Str("Engineer"), Num(75), Num(75), NoAnalysis, EmptyList, EmptyList)])
    ensures Normalise(Obj(map["job_title" := Str("Solo"), "score" := Num(0)]))
      == Matches([JobMatch(Str("Solo"), ZeroScore, ZeroScore, NoAnalysis, EmptyList, EmptyList)])
    ensures Normalise(Obj(map["foo" := Str("bar")])) == Failed(BadShape)
    ensures Normalise(Null) == Failed(NullAccess)
    ensures Normalise(Arr([Null])) == Failed(NullAccess)
  {
    var engineer := Obj(map["job_title" := Str("Engineer"), "score" := Num(75)]);
    assert Get(engineer, "job_title") == Str("Engineer");
    assert Get(engineer, "score") == Num(75);
    assert Get(engineer, "semantic_score") == Absent;
    assert Get(engineer, "reasoning") == Absent;
    assert Get(engineer, "skill_gaps") == Absent;
    assert Get(engineer, "strengths") == Absent;
    var solo := Obj(map["job_title" := Str("Solo"), "score" := Num(0)]);
    assert Get(solo, "results") == Absent;
    assert Get(solo, "matches") == Absent;
    assert Get(solo, "job_title") == Str("Solo");
    assert Get(solo, "score") == Num(0);
    assert Get(solo, "semantic_score") == Absent;
    assert Get(solo, "reasoning") == Absent;
    assert Get(solo, "skill_gaps") == Absent;
    assert Get(solo, "strengths") == Absent;
    var foo := Obj(map["foo" := Str("bar")]);
    assert Get(foo, "results") == Absent;
    assert Get(foo, "matches") == Absent;
    assert Get(foo, "job_title") == Absent;
  }

  /** A record under `results` with every field given keeps every field, and
      defaulting replaces falsy values that are present, not only missing ones. */
  lemma DefaultingExamples()
    ensures var a := Obj(map["job_title" := Str("A"), "semantic_score" := Num(60), "reasoning" := Str("ok"),
                             "strengths" := Arr([Str("x")]), "skill_gaps" := Arr([Str("y")])]);
      Normalise(Obj(map["results" := Arr([a])]))
        == Matches([JobMatch(Str("A"), Num(60), Num(60), Str("ok"), Arr([Str("y")]), Arr([Str("x")]))])
    ensures NormaliseJob(Obj(map["job_title" := Str(""), "semantic_score" := Num(0), "score" := Num(75)]))
        == Ok(JobMatch(UnknownTitle, Num(75), Num(75), NoAnalysis, EmptyList, EmptyList))
  {
    var a := Obj(map["job_title" := Str("A"), "semantic_score" := Num(60), "reasoning" := Str("ok"),
                     "strengths" := Arr([Str("x")]), "skill_gaps" := Arr([Str("y")])]);
    var data := Obj(map["results" := Arr([a])]);
    assert Get(data, "results") == Arr([a]);
    assert Get(a, "job_title") == Str("A");
    assert Get(a, "semantic_score") == Num(60);
    assert Get(a, "score") == Absent;
    assert Get(a, "reasoning") == Str("ok");
    assert Get(a, "skill_gaps") == Arr([Str("y")]);
    assert Get(a, "strengths") == Arr([Str("x")]);
    var b := Obj(map["job_title" := Str(""), "semantic_score" := Num(0), "score" := Num(75)]);
    assert Get(b, "job_title") == Str("");
    assert Get(b, "semantic_score") == Num(0);
    assert Get(b, "score") == Num(75);
    assert Get(b, "reasoning") == Absent;
    assert Get(b, "skill_gaps") == Absent;
    assert Get(b, "strengths") == Absent;
  }
}

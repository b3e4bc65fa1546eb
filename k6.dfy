/** The part of the k6 runtime the scenarios rely on, reduced to values: the
    response of `http.get`, `check`, which records each named outcome in
    order, and the outcome of one iteration of a scenario function. */
module K6 {
  import opened Wrappers
  import opened JsValue
  import opened JsText

  /** What a scenario reads of `http.get`'s response: `status`,
      `timings.duration` in milliseconds, the `Content-Type` header (None
      when absent), the result of `res.json()` (None when it throws) and
      `res.body` (None when it is not a string). */
  datatype Response = Response(
    status: int,
    duration: real,
    contentType: Option<string>,
    body: Option<Json>,
    rawBody: Option<string>)

  /** `r.headers['Content-Type'] && r.headers['Content-Type'].includes(needle)`:
      a missing or empty header is falsy. */
  predicate ContentTypeIncludes(res: Response, needle: string) {
    res.contentType.Some? && res.contentType.value != [] && Includes(res.contentType.value, needle)
  }

  /** One named check as k6 records it. */
  datatype CheckResult = CheckResult(name: string, passed: bool)

  /** One entry of the object passed to `check`: its name and what its
      callback evaluates to. */
  datatype NamedCheck = NamedCheck(name: string, outcome: Completion<bool>)

  /** What one `check` call recorded, and whether a callback threw. */
  datatype Checked = Checked(results: seq<CheckResult>, threw: bool)

  /** `check(value, {...})`: runs the callbacks in order and records each
      result; a callback that throws is recorded as failed and its exception
      leaves `check`, so the callbacks after it do not run. */
  function Record(block: seq<NamedCheck>): (c: Checked)
    ensures |c.results| <= |block|
    ensures forall i :: 0 <= i < |c.results| ==>
      c.results[i] == CheckResult(block[i].name, block[i].outcome == Normal(true))
    ensures c.threw <==> exists i :: 0 <= i < |block| && block[i].outcome.Thrown?
    ensures !c.threw ==> |c.results| == |block|
    ensures c.threw ==> 0 < |c.results| && block[|c.results| - 1].outcome.Thrown?
    ensures c.threw ==> forall i :: 0 <= i < |c.results| - 1 ==> block[i].outcome.Normal?
  {
    if block == [] then Checked([], false)
    else
      var head := CheckResult(block[0].name, block[0].outcome == Normal(true));
      if block[0].outcome.Thrown? then Checked([head], true)
      else
        var rest := Record(block[1..]);
        assert forall i :: 1 <= i < |block| ==> block[1..][i - 1] == block[i];
        Checked([head] + rest.results, rest.threw)
  }

  /** The checks of a block none of whose callbacks can throw. */
  function Results(block: seq<NamedCheck>): (r: seq<CheckResult>)
    requires forall i :: 0 <= i < |block| ==> block[i].outcome.Normal?
    ensures |r| == |block|
    ensures forall i :: 0 <= i < |block| ==> r[i] == CheckResult(block[i].name, block[i].outcome.value)
  {
    Record(block).results
  }

  /** One iteration of a scenario function: the checks it recorded, in order,
      and the message of the `fail(...)` that ended it, if one did. */
  datatype Iteration = Iteration(checks: seq<CheckResult>, failure: Option<string>)

  /** Every recorded check passed. */
  predicate AllPassed(checks: seq<CheckResult>) {
    forall i :: 0 <= i < |checks| ==> checks[i].passed
  }

  lemma AllPassedAppend(a: seq<CheckResult>, b: seq<CheckResult>)
    ensures AllPassed(a + b) <==> AllPassed(a) && AllPassed(b)
  {
    if AllPassed(a) && AllPassed(b) {
      forall i | 0 <= i < |a + b|
        ensures (a + b)[i].passed
      {
        if i < |a| {
          assert (a + b)[i] == a[i];
        } else {
          assert (a + b)[i] == b[i - |a|];
        }
      }
    }
    if AllPassed(a + b) {
      forall i | 0 <= i < |a|
        ensures a[i].passed
      {
        assert (a + b)[i] == a[i];
      }
      forall i | 0 <= i < |b|
        ensures b[i].passed
      {
        assert (a + b)[|a| + i] == b[i];
      }
    }
  }

  /** A block whose callbacks all return true records only passes. */
  lemma RecordAllTrue(block: seq<NamedCheck>)
    requires forall i :: 0 <= i < |block| ==> block[i].outcome == Normal(true)
    ensures !Record(block).threw && |Record(block).results| == |block| && AllPassed(Record(block).results)
  {
  }

  /** A block whose first callback throws records that one check, failed. */
  lemma RecordFirstThrows(block: seq<NamedCheck>)
    requires block != [] && block[0].outcome.Thrown?
    ensures Record(block) == Checked([CheckResult(block[0].name, false)], true)
  {
  }

  const JsonParsingError := "JSON parsing error"
  const ResponseParsingError := "Response parsing error"

  /** `Array.isArray(data) && data.length > 0` */
  predicate IsNonEmptyArray(data: Json) {
    data.JArr? && |data.elems| > 0
  }

  /** `typeof v === 'object' && !Array.isArray(v) && v !== null`, the
      by-id scenarios' "response is object". */
  predicate IsPlainObject(v: Val) {
    TypeOf(v) == "object" && !IsArray(v) && v != Defined(JNull)
  }

  /** It holds exactly for a JSON object: not null, not an array, not a
      primitive. */
  lemma PlainObjectMeaning(v: Val)
    ensures IsPlainObject(v) <==> v.Defined? && v.json.JObj?
  {
  }

  /** "has correct ID": `data.id === id`, strict equality with the requested
      id; reading the id of null throws. */
  function IdCheck(data: Val, id: real): (r: Completion<bool>)
    ensures r.Thrown? <==> IsNullish(data)
    ensures r.Normal? ==> (r.value <==> data.json.JObj? && "id" in data.json.fields && data.json.fields["id"] == JNum(id))
  {
    match GetProp(data, "id")
    case Thrown => Thrown
    case Normal(found) => Normal(found == Num(id))
  }

  /** The same response with another parsed body. */
  function WithBody(res: Response, body: Json): Response {
    res.(body := Some(body))
  }
}

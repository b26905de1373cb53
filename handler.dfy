/**
 * The `POST` handler of app/api/guidance/route.ts:143-582 as a function of
 * its inputs: whether the provider credential is configured, the parsed
 * request body (`None` when it is missing, unparseable or falsy), the
 * provider call and `JSON.parse`. The provider call takes the outbound
 * request, so that the lemmas below can say which request is sent, and that
 * none is sent before the up-front checks pass.
 */
module Handler {
  import opened Wrappers
  import opened Text
  import opened Json
  import opened Normalize
  import opened Plan
  import Extract
  import Prompt

  /** What the provider answered: its HTTP status and its raw body text. */
  datatype Upstream = Upstream(status: int, raw: string)

  /** What the handler answers: an HTTP status and a JSON body. */
  datatype Response = Response(status: int, body: Value)

  /** `resp.ok`. */
  predicate IsOk(status: int)
  {
    200 <= status <= 299
  }

  const MissingKeyError := "Missing OPENAI_API_KEY on the server."
  const MissingKeyFix := "Add OPENAI_API_KEY to your environment variables and restart/redeploy."
  const InvalidBodyError := "Invalid JSON body."
  const MissingFieldsError := "Missing required fields: trigger and goal."

  /** `{ error: msg }`. */
  function ErrorBody(msg: string): Value
  {
    Obj(map["error" := Str(msg)])
  }

  /** `{ error: msg, [key]: text }`, the 502 bodies. */
  function ErrorWith(msg: string, key: string, text: string): Value
  {
    Obj(map["error" := Str(msg), key := Str(text)])
  }

  /** The relayed provider error: its status, and the first 4000 characters
      of its body. */
  function UpstreamError(msg: string, up: Upstream): (r: Response)
    ensures r.status == up.status
    ensures Field(r.body, "details") == Some(Str(Take(up.raw, 4000)))
    ensures Field(r.body, "status") == Some(Num(up.status))
  {
    Response(up.status, Obj(map["error" := Str(msg), "status" := Num(up.status),
                                "details" := Str(Take(up.raw, 4000))]))
  }

  /** The step to refresh: `Number(body.refreshStepNumber)` when it lies in
      [1, 6]. A missing field is `NaN` and `null` is 0, so both fall out. */
  function RefreshNumber(f: NumField): (r: Option<int>)
    ensures r.Some? <==> f.IntValue? && 1 <= f.n <= 6
    ensures r.Some? ==> r.value == f.n
  {
    match f
    case IntValue(n) => if 1 <= n <= 6 then Some(n) else None
    case _ => None
  }

  /** The two kinds of request the handler serves. */
  datatype Mode =
    | StepRefresh(n: int, plan: map<string, Value>, notWorking: string)
    | FullGeneration(unresolved: string)

  /** app/api/guidance/route.ts:193-210: a step refresh when the step number
      is in range and the current guidance has exactly six steps; a full
      generation otherwise. */
  function Route(b: Body): (m: Mode)
    ensures m.StepRefresh? ==> 1 <= m.n <= 6 && "steps" in m.plan &&
                               m.plan["steps"].Arr? && |m.plan["steps"].items| == 6
  {
    var n := RefreshNumber(b.refreshStepNumber);
    if n.Some? && b.currentGuidance.Some? && HasSixSteps(b.currentGuidance.value) then
      StepRefresh(n.value, b.currentGuidance.value.fields, TrimmedOr(b.notWorkingDetails, ""))
    else
      FullGeneration(TrimmedOr(b.unresolvedDetails, ""))
  }

  /** Refresh mode is chosen exactly when its three conditions hold. */
  lemma RouteChoice(b: Body)
    ensures Route(b).StepRefresh? <==>
              b.refreshStepNumber.IntValue? && 1 <= b.refreshStepNumber.n <= 6 &&
              b.currentGuidance.Some? && HasSixSteps(b.currentGuidance.value)
    ensures Route(b).StepRefresh? ==>
              Route(b).n == b.refreshStepNumber.n && Route(b).plan == b.currentGuidance.value.fields
    ensures Route(b).FullGeneration? ==> Route(b).unresolved == Trim(b.unresolvedDetails.GetOr(""))
  {
  }

  /** The "is it an object" check on the model's parsed output:
      `!parsed || typeof parsed !== "object"` rejects everything but objects
      and arrays. */
  predicate Rejected(p: Value)
  {
    !IsObjectLike(p)
  }

  /** Handling of the provider's answer to a step refresh
      (app/api/guidance/route.ts:319-346). No retry is made. */
  function RefreshOutcome(n: int, plan: map<string, Value>, up: Upstream,
                          parse: string -> Option<Value>): (r: Response)
    requires "steps" in plan && plan["steps"].Arr? && |plan["steps"].items| == 6
    requires 1 <= n <= 6
    ensures r.status == 200 || r.status == 502 || (r.status == up.status && !IsOk(up.status))
    ensures r.status == 200 ==> HasSixSteps(r.body)
  {
    if !IsOk(up.status) then UpstreamError("OpenAI API error (step refresh)", up)
    else match parse(up.raw)
      case None =>
        Response(502, ErrorWith("OpenAI response was not valid JSON (step refresh).", "debug", Take(up.raw, 4000)))
      case Some(envelope) =>
        match Extract.ExtractSpec(envelope)
        case None =>
          Response(502, ErrorWith("Unexpected OpenAI response shape (could not extract model text) (step refresh).",
                                  "debug", Take(up.raw, 4000)))
        case Some(text) => RefreshStep(n, plan, text, parse)
  }

  /** The model's text for a step refresh, checked and spliced into the plan
      (app/api/guidance/route.ts:348-386). */
  function RefreshStep(n: int, plan: map<string, Value>, text: string,
                       parse: string -> Option<Value>): (r: Response)
    requires "steps" in plan && plan["steps"].Arr? && |plan["steps"].items| == 6
    requires 1 <= n <= 6
    ensures r.status == 200 || r.status == 502
    ensures r.status == 200 ==> HasSixSteps(r.body)
  {
    match parse(text)
    case None =>
      Response(502, ErrorWith("Model returned invalid JSON (step refresh).", "raw", Take(text, 4000)))
    case Some(p) =>
      if Rejected(p) then
        Response(502, ErrorWith("Parsed step refresh output was not an object.", "raw", Take(text, 2000)))
      else
        var step := Field(p, "step");
        if !(step.Some? && IsGuidanceStep(step.value)) then
          Response(502, ErrorWith("Step refresh output missing required step fields.", "raw", Take(text, 4000)))
        else
          Response(200, Reconcile(plan, n, step.value.fields))
  }

  /** The model's output after the one retry full generation allows: the text
      itself, else its brace-wrapped form. */
  function ParseWithRetry(text: string, parse: string -> Option<Value>): (r: Option<Value>)
    ensures parse(text).Some? ==> r == parse(text)
    ensures parse(text).None? ==> r == parse(RetryText(text))
  {
    match parse(text)
    case Some(p) => Some(p)
    case None => parse(RetryText(text))
  }

  /** Handling of the provider's answer to a full generation
      (app/api/guidance/route.ts:518-545). */
  function FullOutcome(up: Upstream, parse: string -> Option<Value>): (r: Response)
    ensures r.status == 200 || r.status == 502 || (r.status == up.status && !IsOk(up.status))
    ensures r.status == 200 ==> HasSixSteps(r.body)
  {
    if !IsOk(up.status) then UpstreamError("OpenAI API error", up)
    else match parse(up.raw)
      case None =>
        Response(502, ErrorWith("OpenAI response was not valid JSON (unexpected).", "debug", Take(up.raw, 4000)))
      case Some(envelope) =>
        match Extract.ExtractSpec(envelope)
        case None =>
          Response(502, ErrorWith("Unexpected OpenAI response shape (could not extract model text).",
                                  "debug", Take(up.raw, 4000)))
        case Some(text) => FullPlan(text, parse)
  }

  /** The model's text for a full generation, parsed with one retry and
      checked for six steps (app/api/guidance/route.ts:547-578). */
  function FullPlan(text: string, parse: string -> Option<Value>): (r: Response)
    ensures r.status == 200 || r.status == 502
    ensures r.status == 200 ==> HasSixSteps(r.body) && Some(r.body) == ParseWithRetry(text, parse)
  {
    match ParseWithRetry(text, parse)
    case None =>
      Response(502, ErrorWith("Model returned invalid JSON (could not parse).", "raw", Take(text, 4000)))
    case Some(p) =>
      if Rejected(p) then
        Response(502, ErrorWith("Parsed output was not an object.", "raw", Take(text, 2000)))
      else if !HasSixSteps(p) then
        Response(502, ErrorWith("Parsed output missing steps[6].", "raw", Take(text, 4000)))
      else
        Response(200, p)
  }

  /** The request the handler sends for a validated body. */
  function Request(b: Body): (r: Prompt.Outbound)
    ensures r.model == Prompt.ModelName
    ensures Route(b).StepRefresh? ==>
              r.system == Prompt.StepPrompt && r.maxOutputTokens == Prompt.StepMaxOutputTokens
    ensures Route(b).FullGeneration? ==>
              r.system == Prompt.FullPrompt(Route(b).unresolved != "") &&
              r.maxOutputTokens == Prompt.FullMaxOutputTokens
  {
    var s := Normalize.Normalize(b);
    match Route(b)
    case StepRefresh(n, plan, notWorking) => Prompt.StepRequest(s, n, plan, notWorking)
    case FullGeneration(unresolved) => Prompt.FullRequest(s, unresolved)
  }

  /** `trigger.length < 3 || goal.length < 3` on the trimmed fields, which
      are the scenario's `trigger` and `goal`. */
  predicate TooShort(b: Body)
    ensures b.trigger.None? || b.goal.None? ==> TooShort(b)
  {
    |TrimmedOr(b.trigger, "")| < 3 || |TrimmedOr(b.goal, "")| < 3
  }

  /** The modes in which `RefreshOutcome` may be asked for. */
  predicate ValidMode(m: Mode)
  {
    m.StepRefresh? ==> 1 <= m.n <= 6 && "steps" in m.plan &&
                       m.plan["steps"].Arr? && |m.plan["steps"].items| == 6
  }

  /** The provider's answer handled in the chosen mode. */
  function Outcome(m: Mode, up: Upstream, parse: string -> Option<Value>): (r: Response)
    requires ValidMode(m)
    ensures r.status == 200 ==> HasSixSteps(r.body)
    ensures IsOk(r.status) ==> r.status == 200
  {
    match m
    case StepRefresh(n, plan, _) => RefreshOutcome(n, plan, up, parse)
    case FullGeneration(_) => FullOutcome(up, parse)
  }

  /** A present body: the field check, then the one provider call. */
  function Serve(b: Body, call: Prompt.Outbound -> Upstream, parse: string -> Option<Value>): (r: Response)
    ensures r.status == 200 ==> !TooShort(b) && HasSixSteps(r.body)
    ensures IsOk(r.status) ==> r.status == 200
  {
    if TooShort(b) then
      Response(400, ErrorBody(MissingFieldsError))
    else
      Outcome(Route(b), call(Request(b)), parse)
  }

  /** The whole handler. */
  function Post(hasKey: bool, body: Option<Body>, call: Prompt.Outbound -> Upstream,
                parse: string -> Option<Value>): (r: Response)
    ensures r.status == 200 ==> hasKey && body.Some? && !TooShort(body.value)
    ensures r.status == 200 ==> HasSixSteps(r.body)
    ensures IsOk(r.status) ==> r.status == 200
  {
    if !hasKey then
      Response(500, Obj(map["error" := Str(MissingKeyError), "fix" := Str(MissingKeyFix)]))
    else if body.None? then
      Response(400, ErrorBody(InvalidBodyError))
    else
      Serve(body.value, call, parse)
  }

  /** A missing credential gives 500 whatever the body, before any call. */
  lemma MissingKeyFirst(body: Option<Body>, call: Prompt.Outbound -> Upstream, parse: string -> Option<Value>,
                        body': Option<Body>, call': Prompt.Outbound -> Upstream, parse': string -> Option<Value>)
    ensures Post(false, body, call, parse).status == 500
    ensures Post(false, body, call, parse) == Post(false, body', call', parse')
  {
  }

  /** With the credential present, a missing body gives 400, before any call. */
  lemma InvalidBodySecond(call: Prompt.Outbound -> Upstream, parse: string -> Option<Value>,
                          call': Prompt.Outbound -> Upstream, parse': string -> Option<Value>)
    ensures Post(true, None, call, parse) == Response(400, ErrorBody(InvalidBodyError))
    ensures Post(true, None, call, parse) == Post(true, None, call', parse')
  {
  }

  /** Then a trimmed trigger or goal shorter than three characters gives 400,
      before any call. */
  lemma ShortFieldsThird(b: Body, call: Prompt.Outbound -> Upstream, parse: string -> Option<Value>,
                         call': Prompt.Outbound -> Upstream, parse': string -> Option<Value>)
    requires |Trim(b.trigger.GetOr(""))| < 3 || |Trim(b.goal.GetOr(""))| < 3
    ensures Post(true, Some(b), call, parse) == Response(400, ErrorBody(MissingFieldsError))
    ensures Post(true, Some(b), call, parse) == Post(true, Some(b), call', parse')
  {
  }

  /** A validated body leads to exactly one provider call, with the request
      `Request` builds: two providers that answer that request alike give
      the same response. */
  lemma OneCall(b: Body, call: Prompt.Outbound -> Upstream, call': Prompt.Outbound -> Upstream,
                parse: string -> Option<Value>)
    requires call(Request(b)) == call'(Request(b))
    ensures Post(true, Some(b), call, parse) == Post(true, Some(b), call', parse)
  {
  }

  /** A present body with a trigger and goal long enough is handed to the
      provider, once, with the request `Request` builds, and the answer is
      handled in the routed mode. */
  lemma ValidServed(b: Body, call: Prompt.Outbound -> Upstream, parse: string -> Option<Value>)
    requires !TooShort(b)
    ensures Post(true, Some(b), call, parse) == Outcome(Route(b), call(Request(b)), parse)
  {
  }

  /** End to end: a full generation whose provider answer carries model text
      that parses to a six-step object returns that object with 200. */
  lemma FullGenerationServed(b: Body, call: Prompt.Outbound -> Upstream, parse: string -> Option<Value>,
                             t: string, p: Value)
    requires !TooShort(b) && Route(b).FullGeneration?
    requires IsOk(call(Request(b)).status)
    requires parse(call(Request(b)).raw) == Some(Extract.TextEnvelope(t)) && Trim(t) != ""
    requires parse(t) == Some(p) && p.Obj? && HasSixSteps(p)
    ensures Post(true, Some(b), call, parse) == Response(200, p)
  {
    Extract.TextEnvelopeExtract(t);
  }

  /** End to end: a step refresh whose model text parses to an object with a
      valid `step` returns the caller's plan with that step spliced in. */
  lemma StepRefreshServed(b: Body, call: Prompt.Outbound -> Upstream, parse: string -> Option<Value>,
                          t: string, p: Value)
    requires !TooShort(b) && Route(b).StepRefresh?
    requires IsOk(call(Request(b)).status)
    requires parse(call(Request(b)).raw) == Some(Extract.TextEnvelope(t)) && Trim(t) != ""
    requires parse(t) == Some(p) && IsObjectLike(p)
    requires Field(p, "step").Some? && IsGuidanceStep(Field(p, "step").value)
    ensures Post(true, Some(b), call, parse) ==
              Response(200, Reconcile(Route(b).plan, Route(b).n, Field(p, "step").value.fields))
  {
    Extract.TextEnvelopeExtract(t);
  }

  /** A successful step refresh is the caller's plan with only the step at
      `n - 1` replaced, by the model's step carrying the number `n` whatever
      number the model gave it. */
  lemma RefreshSplices(n: int, plan: map<string, Value>, up: Upstream, parse: string -> Option<Value>)
    requires "steps" in plan && plan["steps"].Arr? && |plan["steps"].items| == 6
    requires 1 <= n <= 6
    requires RefreshOutcome(n, plan, up, parse).status == 200
    ensures var r := RefreshOutcome(n, plan, up, parse).body;
            r.Obj? && r.fields.Keys == plan.Keys &&
            (forall k :: k in plan && k != "steps" ==> r.fields[k] == plan[k]) &&
            (forall j :: 0 <= j < 6 && j != n - 1 ==> r.fields["steps"].items[j] == plan["steps"].items[j]) &&
            IsGuidanceStep(r.fields["steps"].items[n - 1]) &&
            r.fields["steps"].items[n - 1].fields["stepNumber"] == Num(n)
    ensures var text := Extract.ExtractSpec(parse(up.raw).value).value;
            var step := Field(parse(text).value, "step").value;
            RefreshOutcome(n, plan, up, parse).body.fields["steps"].items[n - 1] == FixStepNumber(step.fields, n)
  {
    var envelope := parse(up.raw).value;
    var text := Extract.ExtractSpec(envelope).value;
    var step := Field(parse(text).value, "step").value;
    FixStepNumberKeepsShape(step.fields, n);
  }

  /** Step refresh makes no retry: output that does not parse is a 502
      whatever its brace-wrapped form would give. */
  lemma RefreshNoRetry(n: int, plan: map<string, Value>, up: Upstream, parse: string -> Option<Value>)
    requires "steps" in plan && plan["steps"].Arr? && |plan["steps"].items| == 6
    requires 1 <= n <= 6
    requires IsOk(up.status) && parse(up.raw).Some?
    requires Extract.ExtractSpec(parse(up.raw).value).Some?
    requires parse(Extract.ExtractSpec(parse(up.raw).value).value).None?
    ensures RefreshOutcome(n, plan, up, parse).status == 502
  {
  }

  /** Full generation retries once with the brace-wrapped text, and returns
      what that parse gives, unchanged, when it is a six-step object. */
  lemma FullRetrySucceeds(up: Upstream, parse: string -> Option<Value>, p: Value)
    requires IsOk(up.status) && parse(up.raw).Some?
    requires Extract.ExtractSpec(parse(up.raw).value).Some?
    requires var text := Extract.ExtractSpec(parse(up.raw).value).value;
             parse(text).None? && parse(RetryText(text)) == Some(p)
    requires p.Obj? && HasSixSteps(p)
    ensures FullOutcome(up, parse) == Response(200, p)
  {
  }

  /** Full generation returns the parsed output unchanged exactly when it is
      an object with six steps; anything else that parses is a 502. */
  lemma FullAcceptsExactly(up: Upstream, parse: string -> Option<Value>)
    requires IsOk(up.status) && parse(up.raw).Some?
    requires Extract.ExtractSpec(parse(up.raw).value).Some?
    requires ParseWithRetry(Extract.ExtractSpec(parse(up.raw).value).value, parse).Some?
    ensures var p := ParseWithRetry(Extract.ExtractSpec(parse(up.raw).value).value, parse).value;
            (FullOutcome(up, parse) == Response(200, p) <==> HasSixSteps(p)) &&
            (!HasSixSteps(p) ==> FullOutcome(up, parse).status == 502)
  {
  }

  /** A provider error is relayed with its own status in both modes, the
      body's first 4000 characters under `details`. */
  lemma UpstreamErrorRelayed(n: int, plan: map<string, Value>, up: Upstream, parse: string -> Option<Value>)
    requires "steps" in plan && plan["steps"].Arr? && |plan["steps"].items| == 6
    requires 1 <= n <= 6
    requires !IsOk(up.status)
    ensures RefreshOutcome(n, plan, up, parse).status == up.status
    ensures Field(RefreshOutcome(n, plan, up, parse).body, "details") == Some(Str(Take(up.raw, 4000)))
    ensures FullOutcome(up, parse).status == up.status
    ensures Field(FullOutcome(up, parse).body, "details") == Some(Str(Take(up.raw, 4000)))
  {
  }
}

/**
 * The structural checks the handler applies to the model's output and the
 * splice of a regenerated step into the caller's plan
 * (app/api/guidance/route.ts:117-129, 376-384, 551-552, 571).
 */
module Plan {
  import opened Wrappers
  import opened Text
  import opened Json

  /** The six string-valued fields of a guidance step. */
  const StepTextFields: seq<string> :=
    ["title", "parentDo", "parentSay", "successCheck", "ifNotWorking", "timeBox"]

  predicate HasNumber(x: Value, key: string)
  {
    var f := Field(x, key);
    f.Some? && f.value.Num?
  }

  predicate HasString(x: Value, key: string)
  {
    var f := Field(x, key);
    f.Some? && f.value.Str?
  }

  /** `isGuidanceStep`: an object whose `stepNumber` is a number and whose
      six text fields are strings. Empty strings and extra fields pass. */
  predicate IsGuidanceStep(x: Value)
    ensures IsGuidanceStep(x) ==> x.Obj? && "stepNumber" in x.fields && x.fields["stepNumber"].Num?
  {
    x.Obj? &&
    HasNumber(x, "stepNumber") &&
    HasString(x, "title") &&
    HasString(x, "parentDo") &&
    HasString(x, "parentSay") &&
    HasString(x, "successCheck") &&
    HasString(x, "ifNotWorking") &&
    HasString(x, "timeBox")
  }

  /** The step shape stated once over the field list. */
  predicate StepShape(m: map<string, Value>)
  {
    "stepNumber" in m && m["stepNumber"].Num? &&
    forall k :: k in StepTextFields ==> k in m && m[k].Str?
  }

  /** The explicit chain of checks is exactly the step shape. */
  lemma IsGuidanceStepIsStepShape(x: Value)
    ensures IsGuidanceStep(x) <==> x.Obj? && StepShape(x.fields)
  {
    if x.Obj? && StepShape(x.fields) {
      assert "title" in StepTextFields && "parentDo" in StepTextFields;
      assert "parentSay" in StepTextFields && "successCheck" in StepTextFields;
      assert "ifNotWorking" in StepTextFields && "timeBox" in StepTextFields;
    }
  }

  /** Empty strings are accepted in every text field. */
  lemma AcceptsEmptyStrings()
    ensures IsGuidanceStep(Obj(map["stepNumber" := Num(1), "title" := Str(""),
      "parentDo" := Str(""), "parentSay" := Str(""), "successCheck" := Str(""),
      "ifNotWorking" := Str(""), "timeBox" := Str("")]))
  {
  }

  /** A step whose `stepNumber` is a string is refused. */
  lemma RefusesTextStepNumber(m: map<string, Value>)
    ensures !IsGuidanceStep(Obj(m["stepNumber" := Str("1")]))
  {
  }

  /** Fields other than the seven play no part. */
  lemma ExtraFieldsIgnored(m: map<string, Value>, key: string, v: Value)
    requires key != "stepNumber" && key !in StepTextFields
    ensures IsGuidanceStep(Obj(m[key := v])) == IsGuidanceStep(Obj(m))
  {
    assert "title" in StepTextFields && "parentDo" in StepTextFields;
    assert "parentSay" in StepTextFields && "successCheck" in StepTextFields;
    assert "ifNotWorking" in StepTextFields && "timeBox" in StepTextFields;
  }

  /** `Array.isArray(p.steps) && p.steps.length === 6`, applied to anything
      that passes the object check; only an object with a six-element
      `steps` array passes. The only check full generation makes, and the
      one the page makes on every reply it adopts. */
  predicate HasSixSteps(v: Value)
    ensures HasSixSteps(v) ==> v.Obj? && "steps" in v.fields && v.fields["steps"].Arr?
  {
    var f := Field(v, "steps");
    f.Some? && f.value.Arr? && |f.value.items| == 6
  }

  /** `{ ...step, stepNumber: n }`. */
  function FixStepNumber(step: map<string, Value>, n: int): (r: Value)
    ensures r.Obj? && r.fields.Keys == step.Keys + {"stepNumber"}
    ensures r.fields["stepNumber"] == Num(n)
    ensures forall k :: k in step && k != "stepNumber" ==> r.fields[k] == step[k]
  {
    Obj(step["stepNumber" := Num(n)])
  }

  /** Overwriting the number keeps a valid step valid. */
  lemma FixStepNumberKeepsShape(step: map<string, Value>, n: int)
    requires IsGuidanceStep(Obj(step))
    ensures IsGuidanceStep(FixStepNumber(step, n))
  {
  }

  /** `{ ...currentGuidance, steps: steps.map((s, i) => i === idx ? fixed : s) }`
      with `idx = n - 1`: the plan with one step replaced and every other
      field and step carried over. */
  function Reconcile(plan: map<string, Value>, n: int, step: map<string, Value>): (r: Value)
    requires "steps" in plan && plan["steps"].Arr? && |plan["steps"].items| == 6
    requires 1 <= n <= 6
    ensures r.Obj? && r.fields.Keys == plan.Keys
    ensures forall k :: k in plan && k != "steps" ==> r.fields[k] == plan[k]
    ensures HasSixSteps(r)
    ensures forall j :: 0 <= j < 6 && j != n - 1 ==>
              r.fields["steps"].items[j] == plan["steps"].items[j]
    ensures r.fields["steps"].items[n - 1] == FixStepNumber(step, n)
  {
    var steps := plan["steps"].items;
    var fixed := FixStepNumber(step, n);
    Obj(plan["steps" := Arr(seq(|steps|, i requires 0 <= i < |steps| => if i == n - 1 then fixed else steps[i]))])
  }

  /** The text of the one retry full generation makes after a failed parse:
      the trimmed text when it already opens with a brace, else the trimmed
      text wrapped in braces. */
  function RetryText(t: string): (r: string)
    ensures StartsWith(r, "{")
    ensures StartsWith(Trim(t), "{") ==> r == Trim(t)
    ensures !StartsWith(Trim(t), "{") ==>
              |r| == |Trim(t)| + 2 && r[1..|r| - 1] == Trim(t) && r[|r| - 1] == '}'
  {
    var trimmed := Trim(t);
    if StartsWith(trimmed, "{") then trimmed else "{" + trimmed + "}"
  }
}

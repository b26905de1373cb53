/**
 * The outbound requests the handler sends to the model provider
 * (app/api/guidance/route.ts:246-318, 449-518). The JSON Schema objects and
 * the `temperature` are not modelled; the prompt lines are constants and only
 * the choices the handler makes between them are reasoned about. The user
 * message is kept as a JSON value rather than its serialised text.
 */
module Prompt {
  import opened Wrappers
  import opened Text
  import opened Json
  import opened Normalize
  import Plan

  /** Which system prompt a request carries: the step-refresh prompt, or the
      full-generation prompt with or without the unresolved line. Its text is
      `SystemLines`, joined by newlines. */
  datatype SystemPrompt = StepPrompt | FullPrompt(unresolvedLine: bool)

  /** One request to the provider's responses endpoint. */
  datatype Outbound = Outbound(
    model: string,
    system: SystemPrompt,
    user: Value,
    schemaName: string,
    maxOutputTokens: int)

  const ModelName := "gpt-4o-mini-2024-07-18"

  const StepSchemaName := "calm_loop_step_refresh"
  const StepMaxOutputTokens := 450
  const FullSchemaName := "calm_loop_guidance"
  const FullMaxOutputTokens := 1000

  const StepSystemLines: seq<string> := [
    "You are Calm Loop, a supportive parenting micro-coach.",
    "Goal: regenerate ONLY one step in a 6-step plan to make it more effective and specific.",
    "Style: calm, clear, non-judgmental. Simple language. No shaming.",
    "Return ONLY valid JSON that matches the provided JSON schema exactly.",
    "Do NOT include markdown, extra keys, commentary, or surrounding text.",
    "Keep the step short and actionable: what to do + what to say + success check + what to try if it still doesn't work.",
    "The regenerated step must stay consistent with the overall plan tone and constraints.",
    "Account for child behaviors and any second child details if provided."]

  const FullSystemLines: seq<string> := [
    "You are Calm Loop, a supportive parenting micro-coach.",
    "Goal: give practical, specific guidance a parent can apply immediately.",
    "Style: calm, clear, non-judgmental. Simple language. No shaming.",
    "Return ONLY valid JSON that matches the provided JSON schema exactly.",
    "Do NOT include markdown, extra keys, commentary, or surrounding text.",
    "Write steps that are highly specific to the situation and constraints.",
    "Each step must include: what to do, what to say, how to check success, and what to try if it doesn't work.",
    "Account for child behaviors and any second child details if provided.",
    "If there is any immediate danger, the first step must prioritize safety and de-escalation."]

  const UnresolvedLine :=
    "IMPORTANT: The user said the prior plan was unresolved. Adapt this new plan to address what didn't work."

  const RevisedInstruction :=
    "Generate a revised 6-step plan that directly addresses what didn't work previously and offers more workable alternatives."
  const FreshInstruction :=
    "Generate a 6-step plan that feels like a guided walkthrough, not generic tips."
  const StepInstruction :=
    "Regenerate ONLY this step so it is more workable given the exact scenario and constraints. Do not reference other steps explicitly."
  const DefaultWhatDidntWork := "The parent marked this step as not working."

  /** The four plan fields passed along as context for a step refresh. */
  const ContextKeys: set<string> := {"planTitle", "likelyState", "oneLineSummary", "safetyNote"}

  /** A list of strings as a JSON array. */
  function StrArr(xs: seq<string>): (r: Value)
    ensures r.Arr? && |r.items| == |xs|
    ensures forall i :: 0 <= i < |xs| ==> r.items[i] == Str(xs[i])
  {
    Arr(seq(|xs|, i requires 0 <= i < |xs| => Str(xs[i])))
  }

  /** Different lists give different arrays. */
  lemma StrArrInjective(xs: seq<string>, ys: seq<string>)
    requires StrArr(xs) == StrArr(ys)
    ensures xs == ys
  {
    assert |xs| == |ys|;
    forall i | 0 <= i < |xs| ensures xs[i] == ys[i] {
      assert StrArr(xs).items[i] == StrArr(ys).items[i];
    }
  }

  /** The scenario as the model sees it: `timeLimitMinutes` is `null` when
      there is no time limit and `secondChild` is `null` when the second
      child is off. */
  function ScenarioPayload(s: Scenario): map<string, Value>
  {
    map[
      "moodOwner" := Str("Parent"),
      "parentMoods" := StrArr(s.parentMoods),
      "trigger" := Str(s.trigger),
      "goal" := Str(s.goal),
      "environmentType" := Str(s.environmentType),
      "intensityLevel1to10" := Num(s.intensity),
      "timeLimitNone" := Bool(s.timeLimitNone),
      "timeLimitMinutes" := (if s.timeLimitNone then Null else Num(s.timeLimitMin)),
      "childAge" := Num(s.childAge),
      "childBehaviors" := StrArr(s.childBehaviors),
      "secondChildEnabled" := Bool(s.secondChildEnabled),
      "secondChild" := (if s.secondChildEnabled then
          Obj(map["age" := Num(s.secondChildAge),
                  "intensityLevel1to10" := Num(s.secondChildIntensity),
                  "behaviors" := StrArr(s.secondChildBehaviors)])
        else Null),
      "constraintsNotes" := Str(s.constraintsNotes),
      "triedAlready" := StrArr(s.triedAlready)]
  }

  /** The part of a scenario the payload carries: the time limit is masked
      when there is none and the second child's details when it is off. */
  function Visible(s: Scenario): Scenario
  {
    s.(timeLimitMin := if s.timeLimitNone then 0 else s.timeLimitMin,
       secondChildAge := if s.secondChildEnabled then s.secondChildAge else 0,
       secondChildIntensity := if s.secondChildEnabled then s.secondChildIntensity else 0,
       secondChildBehaviors := if s.secondChildEnabled then s.secondChildBehaviors else [])
  }

  /** The payload depends only on the visible part of a scenario. */
  lemma PayloadOfVisible(s: Scenario)
    ensures ScenarioPayload(Visible(s)) == ScenarioPayload(s)
  {
    var v := Visible(s);
    assert v.timeLimitNone == s.timeLimitNone && v.secondChildEnabled == s.secondChildEnabled;
    if s.secondChildEnabled {
      assert v.secondChildAge == s.secondChildAge && v.secondChildIntensity == s.secondChildIntensity;
      assert v.secondChildBehaviors == s.secondChildBehaviors;
    }
    if !s.timeLimitNone {
      assert v.timeLimitMin == s.timeLimitMin;
    }
  }

  /** Equal payloads carry equal lists. */
  lemma PayloadListsAgree(s1: Scenario, s2: Scenario)
    requires ScenarioPayload(s1) == ScenarioPayload(s2)
    ensures s1.parentMoods == s2.parentMoods && s1.childBehaviors == s2.childBehaviors
    ensures s1.triedAlready == s2.triedAlready
  {
    var m1, m2 := ScenarioPayload(s1), ScenarioPayload(s2);
    assert m1["parentMoods"] == m2["parentMoods"];
    StrArrInjective(s1.parentMoods, s2.parentMoods);
    assert m1["childBehaviors"] == m2["childBehaviors"];
    StrArrInjective(s1.childBehaviors, s2.childBehaviors);
    assert m1["triedAlready"] == m2["triedAlready"];
    StrArrInjective(s1.triedAlready, s2.triedAlready);
  }

  /** Equal payloads carry equal texts. */
  lemma PayloadTextsAgree(s1: Scenario, s2: Scenario)
    requires ScenarioPayload(s1) == ScenarioPayload(s2)
    ensures s1.trigger == s2.trigger && s1.goal == s2.goal
    ensures s1.environmentType == s2.environmentType && s1.constraintsNotes == s2.constraintsNotes
  {
    var m1, m2 := ScenarioPayload(s1), ScenarioPayload(s2);
    assert m1["trigger"] == m2["trigger"] && m1["goal"] == m2["goal"];
    assert m1["environmentType"] == m2["environmentType"];
    assert m1["constraintsNotes"] == m2["constraintsNotes"];
  }

  /** Equal payloads carry equal numbers and flags. */
  lemma PayloadNumbersAgree(s1: Scenario, s2: Scenario)
    requires ScenarioPayload(s1) == ScenarioPayload(s2)
    ensures s1.intensity == s2.intensity && s1.childAge == s2.childAge
    ensures s1.timeLimitNone == s2.timeLimitNone && s1.secondChildEnabled == s2.secondChildEnabled
    ensures !s1.timeLimitNone ==> s1.timeLimitMin == s2.timeLimitMin
  {
    var m1, m2 := ScenarioPayload(s1), ScenarioPayload(s2);
    assert m1["intensityLevel1to10"] == m2["intensityLevel1to10"];
    assert m1["childAge"] == m2["childAge"];
    assert m1["timeLimitNone"] == m2["timeLimitNone"];
    assert m1["timeLimitMinutes"] == m2["timeLimitMinutes"];
    assert m1["secondChildEnabled"] == m2["secondChildEnabled"];
  }

  /** Equal payloads carry the same second child when it is on. */
  lemma PayloadSecondChildAgrees(s1: Scenario, s2: Scenario)
    requires ScenarioPayload(s1) == ScenarioPayload(s2)
    requires s1.secondChildEnabled && s2.secondChildEnabled
    ensures s1.secondChildAge == s2.secondChildAge
    ensures s1.secondChildIntensity == s2.secondChildIntensity
    ensures s1.secondChildBehaviors == s2.secondChildBehaviors
  {
    var m1, m2 := ScenarioPayload(s1), ScenarioPayload(s2);
    assert m1["secondChild"] == m2["secondChild"];
    var c1, c2 := m1["secondChild"].fields, m2["secondChild"].fields;
    assert c1["age"] == c2["age"];
    assert c1["intensityLevel1to10"] == c2["intensityLevel1to10"];
    assert c1["behaviors"] == c2["behaviors"];
    StrArrInjective(s1.secondChildBehaviors, s2.secondChildBehaviors);
  }

  /** Equal payloads come from scenarios that agree on their visible part. */
  lemma PayloadDeterminesVisible(s1: Scenario, s2: Scenario)
    requires ScenarioPayload(s1) == ScenarioPayload(s2)
    ensures Visible(s1) == Visible(s2)
  {
    PayloadListsAgree(s1, s2);
    PayloadTextsAgree(s1, s2);
    PayloadNumbersAgree(s1, s2);
    if s1.secondChildEnabled {
      PayloadSecondChildAgrees(s1, s2);
    }
  }

  /** Two scenarios give the same payload exactly when they agree on what is
      visible: nothing else is lost and the masked fields do not leak. */
  lemma ScenarioPayloadExact(s1: Scenario, s2: Scenario)
    ensures ScenarioPayload(s1) == ScenarioPayload(s2) <==> Visible(s1) == Visible(s2)
  {
    if ScenarioPayload(s1) == ScenarioPayload(s2) {
      PayloadDeterminesVisible(s1, s2);
    }
    if Visible(s1) == Visible(s2) {
      PayloadOfVisible(s1);
      PayloadOfVisible(s2);
    }
  }

  /** The time limit the model is given. */
  lemma TimeLimitPayload(s: Scenario)
    ensures ScenarioPayload(s)["timeLimitMinutes"] == Null <==> s.timeLimitNone
    ensures !s.timeLimitNone ==> ScenarioPayload(s)["timeLimitMinutes"] == Num(s.timeLimitMin)
  {
  }

  /** The second child the model is given. */
  lemma SecondChildPayload(s: Scenario)
    ensures ScenarioPayload(s)["secondChild"] == Null <==> !s.secondChildEnabled
  {
  }

  /** The plan's context fields that are present (`JSON.stringify` drops
      those that are `undefined`). */
  function PlanContext(plan: map<string, Value>): (r: map<string, Value>)
    ensures r.Keys == plan.Keys * ContextKeys
    ensures forall k :: k in r ==> r[k] == plan[k]
  {
    map k | k in plan.Keys * ContextKeys :: plan[k]
  }

  /** `notWorkingDetails || "The parent marked this step as not working."`. */
  function WhatDidntWork(details: string): (r: string)
    ensures r != ""
    ensures details != "" ==> r == details
  {
    if details != "" then details else DefaultWhatDidntWork
  }

  /** The request that regenerates step `n` of `plan`. */
  function StepRequest(s: Scenario, n: int, plan: map<string, Value>, notWorking: string): Outbound
    requires "steps" in plan && plan["steps"].Arr? && |plan["steps"].items| == 6
    requires 1 <= n <= 6
  {
    var user := Obj(map[
      "mode" := Str("refresh_step_only"),
      "stepToReplace" := Num(n),
      "scenario" := Obj(ScenarioPayload(s)),
      "planContext" := Obj(PlanContext(plan)),
      "currentStep" := plan["steps"].items[n - 1],
      "whatDidntWork" := Str(WhatDidntWork(notWorking)),
      "instruction" := Str(StepInstruction)]);
    Outbound(ModelName, StepPrompt, user, StepSchemaName, StepMaxOutputTokens)
  }

  /** The step request goes to the same model with its own schema name and
      a budget of 450 output tokens. */
  lemma StepRequestBudget(s: Scenario, n: int, plan: map<string, Value>, notWorking: string)
    requires "steps" in plan && plan["steps"].Arr? && |plan["steps"].items| == 6
    requires 1 <= n <= 6
    ensures var r := StepRequest(s, n, plan, notWorking);
            r.model == ModelName && r.system == StepPrompt &&
            r.schemaName == StepSchemaName && r.maxOutputTokens == 450
  {
  }

  /** The step request carries the step being replaced. */
  lemma StepRequestCarriesStep(s: Scenario, n: int, plan: map<string, Value>, notWorking: string)
    requires "steps" in plan && plan["steps"].Arr? && |plan["steps"].items| == 6
    requires 1 <= n <= 6
    ensures Field(StepRequest(s, n, plan, notWorking).user, "currentStep") == Some(plan["steps"].items[n - 1])
  {
  }

  /** The step request carries the number of the step to replace. */
  lemma StepRequestCarriesNumber(s: Scenario, n: int, plan: map<string, Value>, notWorking: string)
    requires "steps" in plan && plan["steps"].Arr? && |plan["steps"].items| == 6
    requires 1 <= n <= 6
    ensures Field(StepRequest(s, n, plan, notWorking).user, "stepToReplace") == Some(Num(n))
  {
  }

  /** The step request carries the scenario payload. */
  lemma StepRequestCarriesScenario(s: Scenario, n: int, plan: map<string, Value>, notWorking: string)
    requires "steps" in plan && plan["steps"].Arr? && |plan["steps"].items| == 6
    requires 1 <= n <= 6
    ensures Field(StepRequest(s, n, plan, notWorking).user, "scenario") == Some(Obj(ScenarioPayload(s)))
  {
  }

  /** The step request carries the parent's details, or the stock sentence
      when there are none. */
  lemma StepRequestWhatDidntWork(s: Scenario, n: int, plan: map<string, Value>, notWorking: string)
    requires "steps" in plan && plan["steps"].Arr? && |plan["steps"].items| == 6
    requires 1 <= n <= 6
    ensures var u := StepRequest(s, n, plan, notWorking).user;
            (notWorking == "" ==> Field(u, "whatDidntWork") == Some(Str(DefaultWhatDidntWork))) &&
            (notWorking != "" ==> Field(u, "whatDidntWork") == Some(Str(notWorking)))
  {
  }

  /** The non-empty entries of a list (`.filter(Boolean)` on strings). */
  function NonEmpty(xs: seq<string>): (r: seq<string>)
    ensures |r| <= |xs|
    ensures forall k :: 0 <= k < |r| ==> r[k] != ""
  {
    if xs == [] then []
    else (if xs[0] != "" then [xs[0]] else []) + NonEmpty(xs[1..])
  }

  lemma {:induction false} NonEmptyAppend(xs: seq<string>, ys: seq<string>)
    ensures NonEmpty(xs + ys) == NonEmpty(xs) + NonEmpty(ys)
  {
    if xs == [] {
      assert xs + ys == ys;
    } else {
      assert (xs + ys)[0] == xs[0];
      assert (xs + ys)[1..] == xs[1..] + ys;
      NonEmptyAppend(xs[1..], ys);
    }
  }

  lemma {:induction false} NonEmptyKeeps(xs: seq<string>)
    requires forall k :: 0 <= k < |xs| ==> xs[k] != ""
    ensures NonEmpty(xs) == xs
  {
    if xs != [] {
      NonEmptyKeeps(xs[1..]);
      assert [xs[0]] + xs[1..] == xs;
    }
  }

  /** The lines of a system prompt. The full-generation prompt lists its
      fixed lines, then the unresolved line or an empty string, and drops
      the blanks. */
  function SystemLines(p: SystemPrompt): (r: seq<string>)
    ensures p.FullPrompt? ==> forall k :: 0 <= k < |r| ==> r[k] != ""
  {
    match p
    case StepPrompt => StepSystemLines
    case FullPrompt(unresolvedLine) =>
      NonEmpty(FullSystemLines + [if unresolvedLine then UnresolvedLine else ""])
  }

  /** None of the fixed lines is blank, so the filter keeps them all. */
  lemma FullSystemLinesKept()
    ensures NonEmpty(FullSystemLines) == FullSystemLines
  {
    assert forall k :: 0 <= k < |FullSystemLines| ==> |FullSystemLines[k]| > 0;
    NonEmptyKeeps(FullSystemLines);
  }

  /** Filtering a kept list with one more entry keeps that entry unless it
      is blank. */
  lemma NonEmptySnoc(xs: seq<string>, x: string)
    requires NonEmpty(xs) == xs
    ensures NonEmpty(xs + [x]) == if x == "" then xs else xs + [x]
  {
    NonEmptyAppend(xs, [x]);
    assert [x][1..] == [];
    if x == "" {
      assert xs + [] == xs;
    }
  }

  /** The unresolved line is appended exactly when it is asked for; otherwise
      the full prompt is its fixed lines alone. */
  lemma FullSystemTextChoice(unresolvedLine: bool)
    ensures !unresolvedLine ==> SystemLines(FullPrompt(unresolvedLine)) == FullSystemLines
    ensures unresolvedLine ==> SystemLines(FullPrompt(unresolvedLine)) == FullSystemLines + [UnresolvedLine]
  {
    FullSystemLinesKept();
    assert |UnresolvedLine| > 0;
    NonEmptySnoc(FullSystemLines, if unresolvedLine then UnresolvedLine else "");
  }

  /** The request that generates a whole plan, fresh or revised. */
  function FullRequest(s: Scenario, unresolved: string): Outbound
  {
    var instruction := if unresolved != "" then RevisedInstruction else FreshInstruction;
    var user := Obj(ScenarioPayload(s)["unresolvedDetails" := Str(unresolved)]["instruction" := Str(instruction)]);
    Outbound(ModelName, FullPrompt(unresolved != ""), user, FullSchemaName, FullMaxOutputTokens)
  }

  /** The full request asks for a revision exactly when there are unresolved
      details, and carries the details and the whole scenario payload. */
  lemma FullRequestContents(s: Scenario, unresolved: string)
    ensures var r := FullRequest(s, unresolved);
            r.model == ModelName && r.schemaName == FullSchemaName &&
            r.maxOutputTokens == 1000 && r.system == FullPrompt(unresolved != "") &&
            (Field(r.user, "instruction") == Some(Str(RevisedInstruction)) <==> unresolved != "") &&
            (unresolved == "" ==> Field(r.user, "instruction") == Some(Str(FreshInstruction))) &&
            Field(r.user, "unresolvedDetails") == Some(Str(unresolved)) &&
            forall k :: k in ScenarioPayload(s) ==> Field(r.user, k) == Some(ScenarioPayload(s)[k])
  {
  }
}

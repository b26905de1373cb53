/**
 * The client page of app/page.tsx: the scenario form, the chip toggles and
 * the six-step walkthrough, as a class whose methods are the page's event
 * handlers. The server is a parameter of the request handlers: a function
 * from the request body the page sends to the reply it receives.
 */
module Page {
  import opened Wrappers
  import opened Text
  import opened Json
  import opened Normalize
  import opened Plan
  import Handler
  import Prompt

  /** `arr.filter((x) => x !== v)`. */
  function RemoveAll(arr: seq<string>, v: string): (r: seq<string>)
    ensures v !in r
    ensures |r| <= |arr|
    ensures v in arr ==> |r| < |arr|
  {
    if arr == [] then []
    else (if arr[0] == v then [] else [arr[0]]) + RemoveAll(arr[1..], v)
  }

  /** Filtering keeps the order: it distributes over concatenation. */
  lemma {:induction false} RemoveAllAppend(a: seq<string>, b: seq<string>, v: string)
    ensures RemoveAll(a + b, v) == RemoveAll(a, v) + RemoveAll(b, v)
  {
    if a == [] {
      assert a + b == b;
    } else {
      assert (a + b)[0] == a[0];
      assert (a + b)[1..] == a[1..] + b;
      RemoveAllAppend(a[1..], b, v);
    }
  }

  /** Every occurrence of `v` goes and every other element keeps its number
      of occurrences. */
  lemma {:induction false} RemoveAllCounts(arr: seq<string>, v: string, x: string)
    ensures multiset(RemoveAll(arr, v))[x] == if x == v then 0 else multiset(arr)[x]
  {
    if arr != [] {
      RemoveAllCounts(arr[1..], v, x);
      assert arr == [arr[0]] + arr[1..];
      assert multiset(arr) == multiset([arr[0]]) + multiset(arr[1..]);
    }
  }

  /** Without `v` there is nothing to filter. */
  lemma {:induction false} RemoveAllAbsent(arr: seq<string>, v: string)
    requires v !in arr
    ensures RemoveAll(arr, v) == arr
  {
    if arr != [] {
      assert arr[0] != v;
      assert v !in arr[1..];
      RemoveAllAbsent(arr[1..], v);
      assert [arr[0]] + arr[1..] == arr;
    }
  }

  /** No element occurs twice. */
  predicate NoDup(xs: seq<string>)
  {
    forall i, j :: 0 <= i < j < |xs| ==> xs[i] != xs[j]
  }

  /** A fresh element in front of a list without duplicates adds none. */
  lemma NoDupCons(x: string, rest: seq<string>)
    requires NoDup(rest) && x !in rest
    ensures NoDup([x] + rest)
  {
    var r := [x] + rest;
    forall i, j | 0 <= i < j < |r| ensures r[i] != r[j] {
      assert r[j] == rest[j - 1];
      if i > 0 {
        assert r[i] == rest[i - 1];
      }
    }
  }

  lemma {:induction false} RemoveAllNoDup(arr: seq<string>, v: string)
    requires NoDup(arr)
    ensures NoDup(RemoveAll(arr, v))
  {
    if arr != [] {
      assert NoDup(arr[1..]) by {
        forall i, j | 0 <= i < j < |arr| - 1 ensures arr[1..][i] != arr[1..][j] {
          assert arr[1..][i] == arr[i + 1] && arr[1..][j] == arr[j + 1];
        }
      }
      RemoveAllNoDup(arr[1..], v);
      if arr[0] != v {
        assert arr[0] !in arr[1..];
        RemoveAllCounts(arr[1..], v, arr[0]);
        NoDupCons(arr[0], RemoveAll(arr[1..], v));
      }
    }
  }

  /** `toggleInArray(arr, v)`: removes `v` when present, appends it when
      absent. */
  function ToggleInArray(arr: seq<string>, v: string): (r: seq<string>)
    ensures v in arr ==> v !in r && |r| < |arr|
    ensures v !in arr ==> |r| == |arr| + 1 && r[..|arr|] == arr && r[|arr|] == v
  {
    if v in arr then RemoveAll(arr, v) else arr + [v]
  }

  /** Toggling flips the membership of `v` and of nothing else. */
  lemma ToggleMembership(arr: seq<string>, v: string, x: string)
    ensures x in ToggleInArray(arr, v) <==> (if x == v then x !in arr else x in arr)
  {
    RemoveAllCounts(arr, v, x);
  }

  /** Toggling an absent value twice gives the list back. */
  lemma ToggleTwiceAbsent(arr: seq<string>, v: string)
    requires v !in arr
    ensures ToggleInArray(ToggleInArray(arr, v), v) == arr
  {
    RemoveAllAppend(arr, [v], v);
    RemoveAllAbsent(arr, v);
    assert RemoveAll([v], v) == [];
  }

  /** Toggling a present value twice moves it to the end. */
  lemma ToggleTwicePresent(arr: seq<string>, v: string)
    requires v in arr
    ensures ToggleInArray(ToggleInArray(arr, v), v) == RemoveAll(arr, v) + [v]
  {
  }

  /** Filtering keeps only elements of the list. */
  lemma {:induction false} RemoveAllSubset(arr: seq<string>, v: string, x: string)
    requires x in RemoveAll(arr, v)
    ensures x in arr
  {
    RemoveAllCounts(arr, v, x);
  }

  /** A clean list toggled with a clean label stays clean. */
  lemma ToggleKeepsClean(arr: seq<string>, v: string)
    requires CleanList(arr) && v != "" && IsTrimmed(v)
    ensures CleanList(ToggleInArray(arr, v))
  {
    var r := ToggleInArray(arr, v);
    if v in arr {
      forall k | 0 <= k < |r| ensures r[k] != "" && IsTrimmed(r[k]) {
        RemoveAllSubset(arr, v, r[k]);
      }
    }
  }

  /** A list without duplicates stays without duplicates. */
  lemma ToggleKeepsNoDup(arr: seq<string>, v: string)
    requires NoDup(arr)
    ensures NoDup(ToggleInArray(arr, v))
  {
    if v in arr {
      RemoveAllNoDup(arr, v);
    }
  }

  datatype StepStatus = Unset | Working | NotWorking

  datatype Tab = Calm | Clarify | Choose

  /** `Array(6).fill("unset")`. */
  const AllUnset: seq<StepStatus> := [Unset, Unset, Unset, Unset, Unset, Unset]

  /** The form fields the page sends with every request (`basePayload`). */
  datatype Form = Form(
    parentMoods: seq<string>,
    trigger: string,
    goal: string,
    environmentType: string,
    intensity: int,
    timeLimitMin: int,
    timeLimitNone: bool,
    childAge: int,
    constraintsNotes: string,
    childBehaviors: seq<string>,
    secondChildEnabled: bool,
    secondChildAge: int,
    secondChildIntensity: int,
    secondChildBehaviors: seq<string>,
    triedAlready: seq<string>)

  /** The form fields as the request body the handler reads. */
  function BasePayload(f: Form): (b: Body)
    ensures b.refreshStepNumber == Absent && b.currentGuidance.None?
    ensures b.unresolvedDetails.None? && b.notWorkingDetails.None?
  {
    Body(ListArr(f.parentMoods), Some(f.trigger), Some(f.goal), Some(f.environmentType),
         IntValue(f.intensity), f.timeLimitNone, IntValue(f.timeLimitMin), IntValue(f.childAge),
         Some(f.constraintsNotes), ListArr(f.childBehaviors), f.secondChildEnabled,
         IntValue(f.secondChildAge), IntValue(f.secondChildIntensity),
         ListArr(f.secondChildBehaviors), ListArr(f.triedAlready), Absent, None, None, None)
  }

  /** The body of `refreshCurrentStepOnly`: the form, the step number, the
      current plan and empty details. */
  function StepRefreshPayload(f: Form, index: int, guidance: Value): (b: Body)
    ensures b.refreshStepNumber == IntValue(index + 1) && b.currentGuidance == Some(guidance)
    ensures b.notWorkingDetails == Some("") && b.unresolvedDetails.None?
  {
    BasePayload(f).(refreshStepNumber := IntValue(index + 1), currentGuidance := Some(guidance),
                    notWorkingDetails := Some(""))
  }

  /** The body of `refreshPlanWithUnresolvedFeedback`: the form and the
      trimmed details. */
  function UnresolvedPayload(f: Form, details: string): (b: Body)
    ensures b.unresolvedDetails == Some(Trim(details))
  {
    BasePayload(f).(unresolvedDetails := Some(Trim(details)))
  }

  /** The step-refresh body differs from the base body in its three
      refresh fields only. */
  lemma StepRefreshPayloadExtendsBase(f: Form, index: int, guidance: Value)
    ensures StepRefreshPayload(f, index, guidance).(refreshStepNumber := Absent, currentGuidance := None,
                                                    notWorkingDetails := None) == BasePayload(f)
  {
  }

  /** The unresolved body differs from the base body in its details only. */
  lemma UnresolvedPayloadExtendsBase(f: Form, details: string)
    ensures UnresolvedPayload(f, details).(unresolvedDetails := None) == BasePayload(f)
  {
  }

  /** The page's step refresh reaches the handler's step-refresh mode for
      the step the walkthrough shows, with no details. */
  lemma StepRefreshRoutes(f: Form, index: int, guidance: Value)
    requires 0 <= index <= 5 && HasSixSteps(guidance)
    ensures Handler.Route(StepRefreshPayload(f, index, guidance)) ==
              Handler.StepRefresh(index + 1, guidance.fields, "")
  {
  }

  /** The page's unresolved refresh reaches full generation with the trimmed
      details. */
  lemma UnresolvedRoutes(f: Form, details: string)
    ensures Handler.Route(UnresolvedPayload(f, details)) == Handler.FullGeneration(Trim(details))
  {
    TrimIdempotent(details);
  }

  /** A plain `getGuidance` is always a full generation without details. */
  lemma BasePayloadRoutes(f: Form)
    ensures Handler.Route(BasePayload(f)) == Handler.FullGeneration("")
  {
  }

  /** What the page sends survives the handler's normalisation: in-range
      numbers and clean chip lists come through unchanged, and only a time
      limit of 0 (the slider's lowest position, or "None") becomes 10. */
  lemma FormSurvivesNormalize(f: Form)
    requires 1 <= f.intensity <= 10 && 0 <= f.timeLimitMin <= 60 && 1 <= f.childAge <= 18
    requires 1 <= f.secondChildAge <= 18 && 1 <= f.secondChildIntensity <= 10
    requires CleanList(f.parentMoods) && CleanList(f.childBehaviors)
    requires CleanList(f.secondChildBehaviors) && CleanList(f.triedAlready)
    ensures var s := Normalize.Normalize(BasePayload(f));
            s.intensity == f.intensity && s.childAge == f.childAge &&
            s.secondChildAge == f.secondChildAge && s.secondChildIntensity == f.secondChildIntensity &&
            s.timeLimitMin == (if f.timeLimitMin == 0 then 10 else f.timeLimitMin) &&
            s.parentMoods == f.parentMoods && s.childBehaviors == f.childBehaviors &&
            s.secondChildBehaviors == f.secondChildBehaviors && s.triedAlready == f.triedAlready &&
            s.trigger == Trim(f.trigger) && s.goal == Trim(f.goal)
  {
    NormalizeCleanList(f.parentMoods);
    NormalizeCleanList(f.childBehaviors);
    NormalizeCleanList(f.secondChildBehaviors);
    NormalizeCleanList(f.triedAlready);
    NumericFieldStable(f.intensity, 5, 1, 10);
    NumericFieldStable(f.timeLimitMin, 10, 0, 60);
    NumericFieldStable(f.childAge, 7, 1, 18);
    NumericFieldStable(f.secondChildAge, 5, 1, 18);
    NumericFieldStable(f.secondChildIntensity, 5, 1, 10);
  }

  /** What the page receives: text that does not parse, or a status and
      parsed data. */
  datatype ServerReply = NonJson(text: string) | Reply(status: int, data: Value)

  /** What a request handler makes of a reply. */
  datatype Outcome = Adopted(plan: Value) | Failed(message: string)

  const GuidanceShapeMessage := "OpenAI response shape missing steps[6]. Check /api/guidance output."
  const StepShapeMessage := "Step refresh returned invalid plan shape."

  /** `String(data.error)` when `data` is an object holding `error` and that
      text is not empty. */
  function ErrorText(data: Value): (r: Option<string>)
    ensures r.Some? ==> r.value != ""
    ensures r.Some? <==> data.Obj? && "error" in data.fields && ToJsString(data.fields["error"]) != ""
  {
    if data.Obj? && "error" in data.fields && ToJsString(data.fields["error"]) != "" then
      Some(ToJsString(data.fields["error"]))
    else None
  }

  /** The message of a failed request: the server's `error`, else
      "Request failed (<status>)". */
  function FailureMessage(status: int, data: Value): (r: string)
    ensures r != ""
    ensures ErrorText(data).Some? ==> r == ErrorText(data).value
    ensures ErrorText(data).None? ==> r == "Request failed (" + IntToString(status) + ")"
  {
    match ErrorText(data)
    case Some(m) => m
    case None => "Request failed (" + IntToString(status) + ")"
  }

  /** A string `error` from the server is shown as it is. */
  lemma ServerErrorShown(status: int, msg: string)
    requires msg != ""
    ensures FailureMessage(status, Obj(map["error" := Str(msg)])) == msg
  {
  }

  /** The common part of the three request handlers: parse, check `res.ok`,
      check for six steps. */
  function ReplyOutcome(reply: ServerReply, shapeMessage: string): (o: Outcome)
    ensures o.Adopted? <==> reply.Reply? && Handler.IsOk(reply.status) && HasSixSteps(reply.data)
    ensures o.Adopted? ==> o.plan == reply.data
    ensures reply.NonJson? ==> o == Failed("Server returned non-JSON. Raw: " + Take(reply.text, 300))
    ensures reply.Reply? && !Handler.IsOk(reply.status) ==> o == Failed(FailureMessage(reply.status, reply.data))
    ensures reply.Reply? && Handler.IsOk(reply.status) && !HasSixSteps(reply.data) ==> o == Failed(shapeMessage)
  {
    match reply
    case NonJson(text) => Failed("Server returned non-JSON. Raw: " + Take(text, 300))
    case Reply(status, data) =>
      if !Handler.IsOk(status) then Failed(FailureMessage(status, data))
      else if !HasSixSteps(data) then Failed(shapeMessage)
      else Adopted(data)
  }

  /** Whatever the handler answers with success, the page adopts. */
  lemma HandlerSuccessAdopted(hasKey: bool, body: Option<Body>,
                              call: Prompt.Outbound -> Handler.Upstream,
                              parse: string -> Option<Value>, shapeMessage: string)
    requires Handler.Post(hasKey, body, call, parse).status == 200
    ensures var r := Handler.Post(hasKey, body, call, parse);
            ReplyOutcome(Reply(r.status, r.body), shapeMessage) == Adopted(r.body)
  {
  }

  /** And every handler rejection is shown with the handler's own message. */
  lemma HandlerRejectionShown(call: Prompt.Outbound -> Handler.Upstream, parse: string -> Option<Value>,
                              shapeMessage: string)
    ensures var r := Handler.Post(true, None, call, parse);
            ReplyOutcome(Reply(r.status, r.body), shapeMessage) == Failed(Handler.InvalidBodyError)
    ensures var r := Handler.Post(false, None, call, parse);
            ReplyOutcome(Reply(r.status, r.body), shapeMessage) == Failed(Handler.MissingKeyError)
  {
    Handler.InvalidBodySecond(call, parse, call, parse);
    ServerErrorShown(400, Handler.InvalidBodyError);
    var missing := Obj(map["error" := Str(Handler.MissingKeyError), "fix" := Str(Handler.MissingKeyFix)]);
    assert Handler.Post(false, None, call, parse) == Handler.Response(500, missing);
    assert ErrorText(missing) == Some(Handler.MissingKeyError);
  }

  /** A trigger or goal too short is shown with the handler's own message,
      whatever the provider and the parser. */
  lemma HandlerShortFieldsShown(b: Body, call: Prompt.Outbound -> Handler.Upstream,
                                parse: string -> Option<Value>, shapeMessage: string)
    requires Handler.TooShort(b)
    ensures var r := Handler.Post(true, Some(b), call, parse);
            ReplyOutcome(Reply(r.status, r.body), shapeMessage) == Failed(Handler.MissingFieldsError)
  {
    ServerErrorShown(400, Handler.MissingFieldsError);
  }

  /** The walkthrough position: active step, six statuses, solved flag. */
  datatype Progress = Progress(index: int, statuses: seq<StepStatus>, solved: bool)

  predicate ValidProgress(p: Progress)
  {
    0 <= p.index <= 5 && |p.statuses| == 6
  }

  /** `markStepAndAdvanceWorking` on the position: nothing without a plan or
      once solved; otherwise the active step is marked working, and the
      walkthrough moves on, or is solved at the last step. */
  function AfterWorking(p: Progress, hasGuidance: bool): (q: Progress)
    requires ValidProgress(p)
    ensures ValidProgress(q)
    ensures !hasGuidance || p.solved ==> q == p
    ensures hasGuidance && !p.solved ==>
              q.statuses[p.index] == Working &&
              (forall j :: 0 <= j < 6 && j != p.index ==> q.statuses[j] == p.statuses[j]) &&
              (p.index >= 5 ==> q.solved && q.index == p.index) &&
              (p.index < 5 ==> !q.solved && q.index == p.index + 1)
  {
    if !hasGuidance || p.solved then p
    else
      var statuses := p.statuses[p.index := Working];
      if p.index >= 5 then Progress(p.index, statuses, true)
      else Progress(if 5 < p.index + 1 then 5 else p.index + 1, statuses, p.solved)
  }

  /** `k` presses of "Working" from a fresh walkthrough. */
  function WorkingPresses(k: nat): (p: Progress)
    ensures ValidProgress(p)
  {
    if k == 0 then Progress(0, AllUnset, false) else AfterWorking(WorkingPresses(k - 1), true)
  }

  /** After `k < 6` presses the first `k` steps are working, the rest unset
      and step `k` is active; the sixth press solves the walkthrough, and
      further presses change nothing. */
  lemma {:induction false} WorkingPressesProgress(k: nat)
    ensures k <= 5 ==> WorkingPresses(k).index == k && !WorkingPresses(k).solved
    ensures k <= 5 ==> forall j :: 0 <= j < 6 ==>
              WorkingPresses(k).statuses[j] == (if j < k then Working else Unset)
    ensures k >= 6 ==> WorkingPresses(k).solved && WorkingPresses(k).index == 5
    ensures k >= 6 ==> forall j :: 0 <= j < 6 ==> WorkingPresses(k).statuses[j] == Working
  {
    if k > 0 {
      WorkingPressesProgress(k - 1);
    }
  }

  /** `Math.max(0, i - 1)`. */
  function PreviousIndex(i: int): (r: int)
    requires 0 <= i <= 5
    ensures 0 <= r <= 5
    ensures i > 0 ==> r == i - 1
    ensures i == 0 ==> r == 0
  {
    if 0 < i - 1 then i - 1 else 0
  }

  /** `Math.min(5, i + 1)`. */
  function NextIndex(i: int): (r: int)
    requires 0 <= i <= 5
    ensures 0 <= r <= 5
    ensures i < 5 ==> r == i + 1
    ensures i == 5 ==> r == 5
  {
    if 5 < i + 1 then 5 else i + 1
  }

  /** Previous undoes Next away from the last step, and Next undoes Previous
      away from the first. */
  lemma PreviousNextInverse(i: int)
    requires 0 <= i <= 5
    ensures i < 5 ==> PreviousIndex(NextIndex(i)) == i
    ensures i > 0 ==> NextIndex(PreviousIndex(i)) == i
  {
  }

  /** Which chip list a chip belongs to. */
  datatype ChipGroup = ParentMoods | ChildBehaviors | SecondChildBehaviors | TriedAlready

  /** The form's own constraints: sliders within their ranges, a zero time
      limit under "None", chip lists without duplicates whose labels, like
      the fixed option labels they come from, are trimmed and non-empty. */
  predicate ValidForm(f: Form)
  {
    1 <= f.intensity <= 10 && 0 <= f.timeLimitMin <= 60 && 1 <= f.childAge <= 18 &&
    1 <= f.secondChildAge <= 18 && 1 <= f.secondChildIntensity <= 10 &&
    (f.timeLimitNone ==> f.timeLimitMin == 0) &&
    NoDup(f.parentMoods) && NoDup(f.childBehaviors) &&
    NoDup(f.secondChildBehaviors) && NoDup(f.triedAlready) &&
    CleanList(f.parentMoods) && CleanList(f.childBehaviors) &&
    CleanList(f.secondChildBehaviors) && CleanList(f.triedAlready)
  }

  /** The form the page starts with (app/page.tsx:87-171). */
  const InitialForm := Form([], "", "", "Home", 5, 10, false, 7, "", [], false, 5, 5, [], [])

  /** The page state. The form's fields, each a state hook of its own in
      the page, are kept together in one `Form` value. */
  class Walkthrough {
    var tab: Tab
    var form: Form
    var guidance: Option<Value>
    var error: Option<string>
    var activeStepIndex: int
    var stepStatuses: seq<StepStatus>
    var isSolved: bool
    var showUnresolved: bool
    var unresolvedDetails: string

    function CurrentProgress(): Progress
      reads this
    {
      Progress(activeStepIndex, stepStatuses, isSolved)
    }

    /** The state the page keeps: a step index in [0, 5], six statuses, a
        plan with six steps when there is one, and a valid form. */
    predicate Valid()
      reads this
    {
      ValidProgress(CurrentProgress()) &&
      (guidance.Some? ==> HasSixSteps(guidance.value)) &&
      ValidForm(form)
    }

    /** The initial state (app/page.tsx:83-171). */
    constructor ()
      ensures Valid()
      ensures tab == Clarify && form == InitialForm && guidance.None? && error.None?
      ensures CurrentProgress() == Progress(0, AllUnset, false)
      ensures !showUnresolved && unresolvedDetails == ""
    {
      tab := Clarify;
      form := InitialForm;
      guidance := None;
      error := None;
      activeStepIndex := 0;
      stepStatuses := AllUnset;
      isSolved := false;
      showUnresolved := false;
      unresolvedDetails := "";
    }

    /** `getGuidance`: resets the walkthrough, sends the form, and adopts a
        six-step plan (switching to the "Choose" tab) or records the error
        with no plan. */
    method GetGuidance(server: Body -> ServerReply) returns (sent: Body)
      requires Valid()
      modifies this`error, this`guidance, this`activeStepIndex, this`stepStatuses, this`isSolved,
               this`showUnresolved, this`unresolvedDetails, this`tab
      ensures Valid()
      ensures sent == BasePayload(form) && form == old(form)
      ensures CurrentProgress() == Progress(0, AllUnset, false)
      ensures !showUnresolved && unresolvedDetails == ""
      ensures match ReplyOutcome(server(sent), GuidanceShapeMessage)
              case Adopted(g) => guidance == Some(g) && error.None? && tab == Choose
              case Failed(m) => guidance.None? && error == Some(m) && tab == old(tab)
    {
      error := None;
      guidance := None;
      activeStepIndex := 0;
      stepStatuses := AllUnset;
      isSolved := false;
      showUnresolved := false;
      unresolvedDetails := "";
      sent := BasePayload(form);
      var reply := server(sent);
      var outcome := ReplyOutcome(reply, GuidanceShapeMessage);
      match outcome {
        case Adopted(g) =>
          guidance := Some(g);
          tab := Choose;
        case Failed(m) =>
          error := Some(m);
      }
    }

    /** `refreshCurrentStepOnly`: without a plan nothing happens; otherwise
        the active step is marked not working, the step is sent for
        refresh, and a six-step reply replaces the plan, leaving the index
        and statuses alone. A failure is alerted and changes nothing more. */
    method RefreshCurrentStepOnly(server: Body -> ServerReply) returns (sent: Option<Body>, alert: Option<string>)
      requires Valid()
      modifies this`guidance, this`stepStatuses
      ensures Valid()
      ensures form == old(form) && activeStepIndex == old(activeStepIndex) && isSolved == old(isSolved)
      ensures tab == old(tab) && error == old(error)
      ensures showUnresolved == old(showUnresolved) && unresolvedDetails == old(unresolvedDetails)
      ensures old(guidance).None? ==>
                sent.None? && alert.None? && guidance.None? && stepStatuses == old(stepStatuses)
      ensures old(guidance).Some? ==>
                stepStatuses == old(stepStatuses)[activeStepIndex := NotWorking] &&
                sent == Some(StepRefreshPayload(form, activeStepIndex, old(guidance).value)) &&
                match ReplyOutcome(server(sent.value), StepShapeMessage)
                case Adopted(g) => guidance == Some(g) && alert.None?
                case Failed(m) => guidance == old(guidance) && alert == Some(m)
    {
      sent, alert := None, None;
      if guidance.None? {
        return;
      }
      var nextStatuses := stepStatuses;
      nextStatuses := nextStatuses[activeStepIndex := NotWorking];
      stepStatuses := nextStatuses;
      var payload := StepRefreshPayload(form, activeStepIndex, guidance.value);
      sent := Some(payload);
      var outcome := ReplyOutcome(server(payload), StepShapeMessage);
      match outcome {
        case Adopted(g) =>
          guidance := Some(g);
        case Failed(m) =>
          alert := Some(m);
      }
    }

    /** `refreshPlanWithUnresolvedFeedback`: sends the form with the trimmed
        details; a six-step reply replaces the plan and resets the
        walkthrough, the panel and the details. A failure is alerted and
        changes nothing. */
    method RefreshPlanWithUnresolvedFeedback(server: Body -> ServerReply) returns (sent: Body, alert: Option<string>)
      requires Valid()
      modifies this`guidance, this`activeStepIndex, this`stepStatuses, this`isSolved,
               this`showUnresolved, this`unresolvedDetails
      ensures Valid()
      ensures sent == UnresolvedPayload(form, old(unresolvedDetails)) && form == old(form)
      ensures tab == old(tab) && error == old(error)
      ensures match ReplyOutcome(server(sent), GuidanceShapeMessage)
              case Adopted(g) =>
                guidance == Some(g) && alert.None? &&
                CurrentProgress() == Progress(0, AllUnset, false) &&
                !showUnresolved && unresolvedDetails == ""
              case Failed(m) =>
                alert == Some(m) && guidance == old(guidance) &&
                CurrentProgress() == old(CurrentProgress()) &&
                showUnresolved == old(showUnresolved) && unresolvedDetails == old(unresolvedDetails)
    {
      alert := None;
      sent := UnresolvedPayload(form, unresolvedDetails);
      var reply := server(sent);
      var outcome := ReplyOutcome(reply, GuidanceShapeMessage);
      match outcome {
        case Adopted(g) =>
          guidance := Some(g);
          activeStepIndex := 0;
          stepStatuses := AllUnset;
          showUnresolved := false;
          unresolvedDetails := "";
          isSolved := false;
        case Failed(m) =>
          alert := Some(m);
      }
    }

    /** `markStepAndAdvanceWorking`. */
    method MarkStepAndAdvanceWorking()
      requires Valid()
      modifies this`activeStepIndex, this`stepStatuses, this`isSolved
      ensures Valid()
      ensures CurrentProgress() == AfterWorking(old(CurrentProgress()), guidance.Some?)
    {
      if guidance.None? || isSolved {
        return;
      }
      var nextStatuses := stepStatuses;
      nextStatuses := nextStatuses[activeStepIndex := Working];
      stepStatuses := nextStatuses;
      if activeStepIndex >= 5 {
        isSolved := true;
        return;
      }
      activeStepIndex := if 5 < activeStepIndex + 1 then 5 else activeStepIndex + 1;
    }

    /** "← Previous". */
    method Previous()
      requires Valid()
      modifies this`activeStepIndex
      ensures Valid()
      ensures activeStepIndex == PreviousIndex(old(activeStepIndex))
    {
      activeStepIndex := if 0 < activeStepIndex - 1 then activeStepIndex - 1 else 0;
    }

    /** "Next →". */
    method Next()
      requires Valid()
      modifies this`activeStepIndex
      ensures Valid()
      ensures activeStepIndex == NextIndex(old(activeStepIndex))
    {
      activeStepIndex := if 5 < activeStepIndex + 1 then 5 else activeStepIndex + 1;
    }

    /** "Start over": a fresh walkthrough of the same plan. */
    method StartOver()
      requires Valid()
      modifies this`isSolved, this`activeStepIndex, this`stepStatuses
      ensures Valid()
      ensures CurrentProgress() == Progress(0, AllUnset, false)
    {
      isSolved := false;
      activeStepIndex := 0;
      stepStatuses := AllUnset;
    }

    /** Either "Problem solved" button. */
    method ProblemSolved()
      requires Valid()
      modifies this`isSolved
      ensures Valid()
      ensures isSolved
    {
      isSolved := true;
    }

    /** "Problem unresolved": shows or hides the details panel. */
    method ToggleUnresolvedPanel()
      requires Valid()
      modifies this`showUnresolved
      ensures Valid()
      ensures showUnresolved == !old(showUnresolved)
    {
      showUnresolved := !showUnresolved;
    }

    /** Typing in the "What didn't work?" box. */
    method EditUnresolvedDetails(text: string)
      requires Valid()
      modifies this`unresolvedDetails
      ensures Valid()
      ensures unresolvedDetails == text
    {
      unresolvedDetails := text;
    }

    /** The "None" time-limit chip. */
    method ChooseNoTimeLimit()
      requires Valid()
      modifies this`form
      ensures Valid()
      ensures form == old(form).(timeLimitNone := true, timeLimitMin := 0)
    {
      form := form.(timeLimitNone := true, timeLimitMin := 0);
    }

    /** Moving the time-limit slider, whose range is [0, 60]. The slider is
        disabled under "None", and nothing else clears "None", so once it is
        chosen the page keeps it. */
    method MoveTimeLimit(minutes: int)
      requires Valid()
      requires !form.timeLimitNone
      requires 0 <= minutes <= 60
      modifies this`form
      ensures Valid()
      ensures form == old(form).(timeLimitMin := minutes, timeLimitNone := false)
    {
      form := form.(timeLimitMin := minutes, timeLimitNone := false);
    }

    /** Clicking a chip toggles its label in its list. The labels are the
        page's fixed, non-blank option texts. */
    method ToggleChip(group: ChipGroup, chip: string)
      requires Valid()
      requires chip != "" && IsTrimmed(chip)
      modifies this`form
      ensures Valid()
      ensures form == match group
                      case ParentMoods => old(form).(parentMoods := ToggleInArray(old(form).parentMoods, chip))
                      case ChildBehaviors => old(form).(childBehaviors := ToggleInArray(old(form).childBehaviors, chip))
                      case SecondChildBehaviors =>
                        old(form).(secondChildBehaviors := ToggleInArray(old(form).secondChildBehaviors, chip))
                      case TriedAlready => old(form).(triedAlready := ToggleInArray(old(form).triedAlready, chip))
    {
      match group {
        case ParentMoods =>
          ToggleKeepsNoDup(form.parentMoods, chip);
          ToggleKeepsClean(form.parentMoods, chip);
          form := form.(parentMoods := ToggleInArray(form.parentMoods, chip));
        case ChildBehaviors =>
          ToggleKeepsNoDup(form.childBehaviors, chip);
          ToggleKeepsClean(form.childBehaviors, chip);
          form := form.(childBehaviors := ToggleInArray(form.childBehaviors, chip));
        case SecondChildBehaviors =>
          ToggleKeepsNoDup(form.secondChildBehaviors, chip);
          ToggleKeepsClean(form.secondChildBehaviors, chip);
          form := form.(secondChildBehaviors := ToggleInArray(form.secondChildBehaviors, chip));
        case TriedAlready =>
          ToggleKeepsNoDup(form.triedAlready, chip);
          ToggleKeepsClean(form.triedAlready, chip);
          form := form.(triedAlready := ToggleInArray(form.triedAlready, chip));
      }
    }

    /** "Add second child" / "Second child: On". */
    method ToggleSecondChild()
      requires Valid()
      modifies this`form
      ensures Valid()
      ensures form == old(form).(secondChildEnabled := !old(form).secondChildEnabled)
    {
      form := form.(secondChildEnabled := !form.secondChildEnabled);
    }

    /** Picking an environment chip. */
    method ChooseEnvironment(env: string)
      requires Valid()
      modifies this`form
      ensures Valid()
      ensures form == old(form).(environmentType := env)
    {
      form := form.(environmentType := env);
    }

    /** Typing in the trigger and goal boxes. */
    method EditTriggerGoal(trigger: string, goal: string)
      requires Valid()
      modifies this`form
      ensures Valid()
      ensures form == old(form).(trigger := trigger, goal := goal)
    {
      form := form.(trigger := trigger, goal := goal);
    }

    /** Typing in the constraints box. */
    method EditConstraints(notes: string)
      requires Valid()
      modifies this`form
      ensures Valid()
      ensures form == old(form).(constraintsNotes := notes)
    {
      form := form.(constraintsNotes := notes);
    }

    /** Moving the intensity and age sliders, each within its range. */
    method MoveSliders(intensity: int, childAge: int, secondAge: int, secondIntensity: int)
      requires Valid()
      requires 1 <= intensity <= 10 && 1 <= childAge <= 18
      requires 1 <= secondAge <= 18 && 1 <= secondIntensity <= 10
      modifies this`form
      ensures Valid()
      ensures form == old(form).(intensity := intensity, childAge := childAge,
                                 secondChildAge := secondAge, secondChildIntensity := secondIntensity)
    {
      form := form.(intensity := intensity, childAge := childAge,
                    secondChildAge := secondAge, secondChildIntensity := secondIntensity);
    }
  }
}

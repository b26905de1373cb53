# Calm Loop guidance pipeline in Dafny

Calm Loop is a parenting micro-coach. A parent describes a hard moment with
their child: the trigger, a goal, moods, the child's age and behaviours,
what they already tried, and an optional time limit. The server asks a
language model for a six-step de-escalation plan, and the page walks the
parent through the steps one at a time. A step can be marked working or not
working. A step that is not working can be regenerated on its own, and the
whole plan can be regenerated with feedback about what did not work.

This project models two parts of that system and proves properties of them.

- **The request handler** (`app/api/guidance/route.ts`) is modelled as one pure
  function, `Handler.Post`. Its inputs are:
  - whether the provider credential is configured;
  - the parsed request body;
  - the provider call, a function from the outbound request to a status and
    raw text;
  - `JSON.parse`, a partial function from text to a small JSON value type.

  Inside it the model follows the handler's stages:
  - input normalisation (`Normalize`);
  - the up-front checks and the choice between step refresh and full
    generation (`Handler.Route`);
  - the prompts sent to the provider (`Prompt`);
  - pulling the model's text out of the provider's envelope (`Extract`). Its
    nested loops are a method proved equal to a specification function;
  - the structural checks on the model's output and the splice of a
    regenerated step into the plan (`Plan`);
  - the mapping of every failure to its status and body.
- **The page** (`app/page.tsx`) is the class `Page.Walkthrough`. Its fields are
  the page's state and its methods are the event handlers. The three request
  handlers take the server as a function from the request body the page
  sends to the reply it receives.
- Lemmas tie the page to the handler:
  - what the page sends is routed as the page means it;
  - it survives normalisation;
  - every success the handler returns is adopted.

Files: `wrappers.dfy`, `text.dfy` (JavaScript string operations), `json.dfy`,
`normalize.dfy`, `extract.dfy`, `plan.dfy`, `prompt.dfy`, `handler.dfy`,
`page.dfy`.

### Behaviour of the code that the proofs bring out

- `normalizeStringArray` keeps duplicates: `["Cry", " Cry "]` and
  `"Cry, ,Cry"` both give `["Cry", "Cry"]`.
- A time limit of 0 becomes 10. `Number(x ?? d) || d` sends 0 to the default,
  so a time limit of -5 becomes 0, and sending that 0 again gives 10.
  Normalising twice is therefore not the same as normalising once. A time
  limit of 0 without "None" becomes 10 minutes, and the page's slider at its
  lowest position sends exactly that.
- Full generation checks only `steps.length === 6`. It does not look at the
  fields of each step or at each step's `stepNumber`.
- Step refresh checks the shape of the regenerated step only, and forces the
  number of that one step. Empty strings pass `isGuidanceStep`.

## Model

| member | source | states |
|---|---|---|
| `Text.TrimStart` | app/api/guidance/route.ts:75 | what `trim` drops at the front is white space, and what stays does not start with any |
| `Text.TrimEnd` | app/api/guidance/route.ts:75 | what `trim` drops at the end is white space, and what stays does not end with any |
| `Text.Trim` | app/api/guidance/route.ts:75 | the result is trimmed and no longer than the input; a trimmed string is unchanged |
| `Text.TrimEmptyIffBlank` | app/api/guidance/route.ts:75 | a string trims to empty iff it is all white space |
| `Text.TrimPadded` | app/api/guidance/route.ts:75 | a space on each side of a trimmed word is trimmed away |
| `Text.Take` | app/api/guidance/route.ts:326 | `slice(0, n)` is a prefix of length `min(n, length)` |
| `Text.StartsWith` | app/api/guidance/route.ts:552 | `s.startsWith(p)`; `RetryText` shows the retry text always passes it |
| `Text.Join` | app/api/guidance/route.ts:77-80 | `parts.join(sep)`; `JoinSplitOnComma` and `SplitJoinOnComma` make it the inverse of `split(",")` |
| `Text.SplitOnComma` | app/api/guidance/route.ts:76-78 | `split(",")` gives at least one piece and no piece holds a comma |
| `Text.JoinSplitOnComma` | app/api/guidance/route.ts:76-78 | joining the pieces with commas gives the string back |
| `Text.SplitWithoutComma` | app/api/guidance/route.ts:78 | a string without commas splits into itself alone |
| `Text.SplitJoinOnComma` | app/api/guidance/route.ts:76-78 | splitting the comma-join of comma-free pieces gives the pieces back |
| `Text.NatToString` | app/page.tsx:233 | the decimal digits of `n`, at least one, with no leading zero |
| `Text.NatToStringValue` | app/page.tsx:233 | the digits rendered denote `n` again |
| `Text.IntToString` | app/page.tsx:233 | `${status}`: never empty; the digits of `n`, after a minus sign when `n` is negative |
| `Json.IsObjectLike` | app/api/guidance/route.ts:89 | `!x \|\| typeof x !== "object"` fails exactly for objects and arrays: arrays pass `typeof === "object"` and then fail on the field reads, since `Field` gives nothing on an array |
| `Json.Field` | app/api/guidance/route.ts:92-108 | a property read gives a value iff the value is an object holding the key, and then gives that key's value |
| `Json.ToJsString` | app/page.tsx:232 | `String(v)`: a string is itself, `null` is "null", a boolean is "true" or "false", a number its digits, an object "[object Object]", an array the string of its elements |
| `Json.ElementsToJsString` | app/page.tsx:232 | `String` of an array: the empty array gives ""; `StringOfStrings` shows an array of strings gives their comma join |
| `Json.StringOfStrings` | app/page.tsx:232 | `String` of an array of strings is the strings joined with commas |
| `Normalize.Clamp` | app/api/guidance/route.ts:70-72 | the result lies in [min, max]; an in-range value is unchanged; below gives min, above gives max |
| `Normalize.ClampIdempotent` | app/api/guidance/route.ts:70-72 | clamping twice is clamping once |
| `Normalize.Coerce` | app/api/guidance/route.ts:164-178 | a missing, `null`, `NaN` or zero field takes the default; any other integer is kept |
| `Normalize.NormalizeList` | app/api/guidance/route.ts:75 | every element returned is trimmed and non-empty, and there are no more than went in |
| `Normalize.NormalizeStringArray` | app/api/guidance/route.ts:74-82 | the list is clean; an input that is neither an array nor a string gives `[]` |
| `Normalize.NormalizeListAppend` | app/api/guidance/route.ts:75 | normalisation distributes over concatenation, so input order is kept |
| `Normalize.NormalizeListMembership` | app/api/guidance/route.ts:75 | a string is in the result iff it is non-empty and is the trimmed form of some input |
| `Normalize.NormalizeCleanList` | app/api/guidance/route.ts:75 | a clean list comes back unchanged |
| `Normalize.KeepsDuplicatesInArray` | app/api/guidance/route.ts:75 | for any trimmed non-empty word `x`, `[x, " x "]` gives `[x, x]`: no deduplication |
| `Normalize.NormalizeWordBlankWord` | app/api/guidance/route.ts:79-80 | the pieces `[x, " ", x]` of a trimmed word `x` give `[x, x]`: the blank goes, the repeat stays |
| `Normalize.SplitWordBlankWord` | app/api/guidance/route.ts:78 | a comma-free `x` makes `"x, ,x"` split into `[x, " ", x]` |
| `Normalize.KeepsDuplicatesInText` | app/api/guidance/route.ts:76-80 | for a trimmed, non-empty, comma-free `x`, `"x, ,x"` gives `[x, x]`: split on commas, blanks dropped, duplicates kept |
| `Normalize.NormalizeTextWithoutComma` | app/api/guidance/route.ts:76-80 | a comma-free string gives its trimmed self, or nothing when it is blank |
| `Normalize.NumericField` | app/api/guidance/route.ts:164-178 | `clamp(Number(x ?? d) \|\| d, lo, hi)` lies in its range and is the clamped default or the clamped number; `NumericFieldStable` shows an in-range number is kept |
| `Normalize.TrimmedOr` | app/api/guidance/route.ts:160-171 | `String(x ?? d).trim()` is trimmed: the trimmed field, or the trimmed default when it is missing |
| `Normalize.NumericFieldStable` | app/api/guidance/route.ts:164-181 | an in-range number comes back unchanged, except 0, which takes the default |
| `Normalize.Normalize` | app/api/guidance/route.ts:159-186 | every numeric field lies in its range, the strings are trimmed, the four lists are clean, and the two flags are copied |
| `Normalize.DefaultsApply` | app/api/guidance/route.ts:164-181 | defaults are 5, 10, 7, 5, 5 and "Home"; 15 clamps to 10, 0 gives the default, -3 clamps to 1 |
| `Normalize.NormalizeStable` | app/api/guidance/route.ts:159-186 | normalising a normalised scenario again changes nothing except a zero time limit, which becomes 10 |
| `Normalize.TimeLimitNotStable` | app/api/guidance/route.ts:168 | a time limit of -5 becomes 0, and then 10 on a second pass |
| `Extract.EntryText` | app/api/guidance/route.ts:106-109 | one content entry gives its `text` when that is a non-empty string, otherwise nothing |
| `Extract.ContentParts` | app/api/guidance/route.ts:105-110 | the fragments of a content array: at most one per entry, none empty |
| `Extract.ItemParts` | app/api/guidance/route.ts:100-110 | an item that is not an object gives nothing; every fragment is non-empty |
| `Extract.OutputParts` | app/api/guidance/route.ts:99-111 | the fragments of every item, none empty; `OutputPartsAppend` keeps encounter order |
| `Extract.NonBlankString` | app/api/guidance/route.ts:93 | `typeof outputText === "string" && outputText.trim()`: a string field whose trim is not empty; `OutputTextWins` and `IgnoredOutputText` state what each side of it does |
| `Extract.ExtractSpec` | app/api/guidance/route.ts:88-115 | a returned text is never blank; anything but an object gives none |
| `Extract.OutputText` | app/api/guidance/route.ts:113-114 | text collected from `output` is non-empty and trimmed |
| `Extract.ExtractModelText` | app/api/guidance/route.ts:88-115 | the looping extractor returns exactly what `ExtractSpec` defines |
| `Extract.CollectOutputText` | app/api/guidance/route.ts:98-111 | the outer loop collects the fragments of every item in order |
| `Extract.PushContentText` | app/api/guidance/route.ts:105-110 | the inner loop appends the non-empty `text` of each content entry, in order |
| `Extract.OutputTextWins` | app/api/guidance/route.ts:92-93 | a non-blank `output_text` is returned untrimmed, whatever `output` holds |
| `Extract.IgnoredOutputText` | app/api/guidance/route.ts:92-96 | a blank or non-string `output_text` makes no difference |
| `Extract.CollectedTextTrimmed` | app/api/guidance/route.ts:113-114 | text gathered from `output` comes back trimmed |
| `Extract.Concat` | app/api/guidance/route.ts:113 | `parts.join("")`; `ConcatAppend` shows joining two runs of parts is joining each in turn |
| `Extract.ConcatAppend` | app/api/guidance/route.ts:113 | the join of two runs of parts is the join of each, one after the other |
| `Extract.ContentPartsAppend` | app/api/guidance/route.ts:105-110 | the fragments of two runs of content entries are those of each, in order |
| `Extract.OutputPartsAppend` | app/api/guidance/route.ts:98-111 | fragments are gathered in encounter order across items |
| `Extract.OutputTextConcatenates` | app/api/guidance/route.ts:98-113 | the joined text of two runs of items is the joined text of each, one after the other |
| `Extract.MessageParts` | app/api/guidance/route.ts:98-111 | one message item with one text entry contributes exactly that text |
| `Extract.MessageJoined` | app/api/guidance/route.ts:113 | the fragments of that message item join to its text |
| `Extract.TextEnvelopeExtract` | app/api/guidance/route.ts:92-93 | the aggregated envelope yields its text when it is not blank |
| `Extract.MessageEnvelopeExtract` | app/api/guidance/route.ts:95-114 | the message envelope yields its trimmed, non-empty text |
| `Extract.EnvelopesAgree` | app/api/guidance/route.ts:84-115 | the aggregated envelope and the message envelope around the same trimmed text both yield that text |
| `Plan.IsGuidanceStep` | app/api/guidance/route.ts:117-129 | a step is an object with a numeric `stepNumber`; `IsGuidanceStepIsStepShape` gives the full shape, both ways |
| `Plan.HasSixSteps` | app/api/guidance/route.ts:571 | a plan that passes is an object whose `steps` is an array; `FullAcceptsExactly` and `ReplyOutcome` show it is the only check on a plan |
| `Plan.IsGuidanceStepIsStepShape` | app/api/guidance/route.ts:117-129 | `isGuidanceStep` holds iff the value is an object with a numeric `stepNumber` and all six text fields strings |
| `Plan.AcceptsEmptyStrings` | app/api/guidance/route.ts:117-129 | a step whose six texts are all empty passes |
| `Plan.RefusesTextStepNumber` | app/api/guidance/route.ts:121 | a step whose `stepNumber` is a string fails |
| `Plan.ExtraFieldsIgnored` | app/api/guidance/route.ts:117-129 | fields other than the seven make no difference |
| `Plan.FixStepNumber` | app/api/guidance/route.ts:376-379 | the step keeps every field but `stepNumber`, which becomes `n` |
| `Plan.FixStepNumberKeepsShape` | app/api/guidance/route.ts:376-379 | renumbering a valid step keeps it valid |
| `Plan.Reconcile` | app/api/guidance/route.ts:376-384 | the plan keeps every field and every step but the one at `n - 1`, which is the renumbered step; it still has six steps |
| `Plan.RetryText` | app/api/guidance/route.ts:551-552 | the retry text opens with `{`; it is the trimmed text when that opens with `{`, else the trimmed text between braces |
| `Prompt.ScenarioPayload` | app/api/guidance/route.ts:259-280 | the scenario as sent to the model; `ScenarioPayloadExact` shows it loses nothing visible and leaks nothing masked |
| `Prompt.ScenarioPayloadExact` | app/api/guidance/route.ts:259-280 | two scenarios give the same payload iff they agree on its visible part: nothing is lost and the masked fields do not leak |
| `Prompt.TimeLimitPayload` | app/api/guidance/route.ts:267 | `timeLimitMinutes` is `null` iff there is no time limit, else the minutes |
| `Prompt.SecondChildPayload` | app/api/guidance/route.ts:271-277 | `secondChild` is `null` iff the second child is off |
| `Prompt.PlanContext` | app/api/guidance/route.ts:281-286 | the context holds exactly those of the four plan fields that are present, with their values |
| `Prompt.WhatDidntWork` | app/api/guidance/route.ts:288-289 | the parent's details when there are any, else a non-empty stock sentence |
| `Prompt.StepRequest` | app/api/guidance/route.ts:258-317 | the step-refresh request; the `StepRequest…` lemmas below state its model, budget, step, number, scenario and details |
| `Prompt.StepRequestBudget` | app/api/guidance/route.ts:294-316 | the step request uses the fixed model, the step schema name and 450 output tokens |
| `Prompt.StepRequestCarriesStep` | app/api/guidance/route.ts:287 | the step request carries the current step at position `n - 1` |
| `Prompt.StepRequestCarriesNumber` | app/api/guidance/route.ts:258 | the step request carries the number of the step to replace |
| `Prompt.StepRequestCarriesScenario` | app/api/guidance/route.ts:259-280 | the step request carries the scenario payload |
| `Prompt.StepRequestWhatDidntWork` | app/api/guidance/route.ts:288-289 | blank details give the stock sentence and other details are sent as they are |
| `Prompt.SystemLines` | app/api/guidance/route.ts:449-464 | the full-generation system lines hold no empty line; `FullSystemTextChoice` says which lines they are |
| `Prompt.NonEmpty` | app/api/guidance/route.ts:463 | `filter(Boolean)` leaves no empty line and is no longer than its input; `NonEmptyKeeps` shows a list without empty lines comes back whole |
| `Prompt.NonEmptyKeeps` | app/api/guidance/route.ts:463 | a list without empty lines is returned unchanged |
| `Prompt.NonEmptyAppend` | app/api/guidance/route.ts:463 | `filter(Boolean)` distributes over concatenation |
| `Prompt.FullSystemLinesKept` | app/api/guidance/route.ts:449-458 | none of the nine fixed system lines is empty, so the filter keeps them all |
| `Prompt.NonEmptySnoc` | app/api/guidance/route.ts:463 | `filter(Boolean)` on a clean list with one more line drops that line iff it is empty |
| `Prompt.FullSystemTextChoice` | app/api/guidance/route.ts:449-464 | the system lines are the nine fixed lines, followed by the unresolved line iff the flag is set |
| `Prompt.FullRequest` | app/api/guidance/route.ts:449-515 | the full-generation request; `FullRequestContents` states what it carries |
| `Prompt.FullRequestContents` | app/api/guidance/route.ts:466-515 | the revised instruction is sent iff there are unresolved details, and the fresh one otherwise; the details and the whole scenario payload are sent; 1000 tokens |
| `Handler.IsOk` | app/api/guidance/route.ts:321 | `resp.ok` is a status in [200, 299]; `Post` and `ReplyOutcome` state what each side does with it |
| `Handler.UpstreamError` | app/api/guidance/route.ts:321-327 | a provider error keeps its status and carries the first 4000 characters of the body under `details` |
| `Handler.RefreshNumber` | app/api/guidance/route.ts:193-199 | a step number is taken iff the field is an integer in [1, 6] |
| `Handler.Route` | app/api/guidance/route.ts:205-210 | a step refresh names a step in [1, 6] of a plan with six steps |
| `Handler.RouteChoice` | app/api/guidance/route.ts:193-210 | refresh mode is chosen iff the step number is in [1, 6] and the current guidance has an array of exactly six steps |
| `Handler.Rejected` | app/api/guidance/route.ts:358 | `!parsed \|\| typeof parsed !== "object"` (also app/api/guidance/route.ts:563) rejects everything but objects and arrays; an array then fails the `step` or `steps` check, so `RefreshStep` and `FullPlan` return 502 for it |
| `Handler.RefreshOutcome` | app/api/guidance/route.ts:319-346 | the status is 200, 502 or the provider's failing status; a 200 body has six steps |
| `Handler.RefreshStep` | app/api/guidance/route.ts:348-386 | the status is 200 or 502; a 200 body has six steps |
| `Handler.ParseWithRetry` | app/api/guidance/route.ts:547-561 | parsed text is used as it is; on failure the brace-wrapped retry text is parsed instead |
| `Handler.FullOutcome` | app/api/guidance/route.ts:518-545 | the status is 200, 502 or the provider's failing status; a 200 body has six steps |
| `Handler.FullPlan` | app/api/guidance/route.ts:547-578 | the status is 200 or 502; a 200 body has six steps and is the parsed output, after at most one retry |
| `Handler.Request` | app/api/guidance/route.ts:294-317 | the one request built for a body: the fixed model, and the step prompt with 450 tokens in refresh mode or the full prompt, with the unresolved line iff there are details, and 1000 tokens otherwise |
| `Handler.TooShort` | app/api/guidance/route.ts:188 | a missing trigger or goal is too short, as `!trigger` is |
| `Handler.Outcome` | app/api/guidance/route.ts:205-578 | in either mode a 200 body has six steps, and no other 2xx status is returned |
| `Handler.Serve` | app/api/guidance/route.ts:188-578 | a 200 needs a trimmed trigger and goal of three characters or more, and its body has six steps; no other 2xx status |
| `Handler.Post` | app/api/guidance/route.ts:143-578 | a 200 needs the credential, a body and a trigger and goal of three characters or more; its body has six steps; no other 2xx status is returned |
| `Handler.MissingKeyFirst` | app/api/guidance/route.ts:145-151 | a missing credential gives 500 whatever the body, the provider and the parser |
| `Handler.InvalidBodySecond` | app/api/guidance/route.ts:153-154 | then a missing body gives 400, whatever the provider and the parser |
| `Handler.ShortFieldsThird` | app/api/guidance/route.ts:188-190 | then a trimmed trigger or goal shorter than three characters gives 400, whatever the provider and the parser |
| `Handler.ValidServed` | app/api/guidance/route.ts:188-317 | with the credential and a trigger and goal long enough, the response is the routed handling of the provider's answer to `Request` |
| `Handler.FullGenerationServed` | app/api/guidance/route.ts:518-578 | end to end: a full generation whose model text parses to a six-step object returns that object with 200 |
| `Handler.StepRefreshServed` | app/api/guidance/route.ts:319-386 | end to end: a step refresh whose model text parses to an object with a valid `step` returns the plan with that step spliced in at `n - 1`, with 200 |
| `Handler.OneCall` | app/api/guidance/route.ts:294-317 | the response depends on the provider only through its answer to the one request the handler builds |
| `Handler.RefreshSplices` | app/api/guidance/route.ts:348-386 | a successful step refresh is the caller's plan with only step `n - 1` replaced, by the model's `step` renumbered to `n`, which is valid |
| `Handler.RefreshNoRetry` | app/api/guidance/route.ts:348-356 | in step refresh, model output that does not parse is a 502 with no retry |
| `Handler.FullRetrySucceeds` | app/api/guidance/route.ts:547-578 | in full generation, a brace-wrapped retry that parses to a six-step object is returned unchanged with 200 |
| `Handler.FullAcceptsExactly` | app/api/guidance/route.ts:563-578 | full generation returns the parsed output with 200 iff it has six steps, otherwise 502 |
| `Handler.UpstreamErrorRelayed` | app/api/guidance/route.ts:520-526 | in both modes a failing provider status is relayed with the body's first 4000 characters |
| `Page.RemoveAll` | app/page.tsx:174-176 | the filtered list no longer holds the value, and is shorter when it held it |
| `Page.RemoveAllCounts` | app/page.tsx:174-176 | every occurrence of the value goes; every other element keeps its count |
| `Page.NoDupCons` | app/page.tsx:173-177 | a head that is not in a duplicate-free tail gives a duplicate-free list |
| `Page.RemoveAllAppend` | app/page.tsx:174-176 | filtering keeps the order of what remains |
| `Page.ToggleInArray` | app/page.tsx:173-177 | a present value is removed; an absent value is appended after the unchanged list |
| `Page.ToggleMembership` | app/page.tsx:173-177 | toggling flips the membership of the value and of nothing else |
| `Page.ToggleTwiceAbsent` | app/page.tsx:173-177 | toggling an absent value twice gives the list back |
| `Page.ToggleTwicePresent` | app/page.tsx:173-177 | toggling a present value twice moves it to the end |
| `Page.RemoveAllSubset` | app/page.tsx:174-176 | filtering keeps only elements of the list |
| `Page.ToggleKeepsClean` | app/page.tsx:173-177 | a list of trimmed, non-empty labels toggled with such a label stays so |
| `Page.ToggleKeepsNoDup` | app/page.tsx:173-177 | a list without duplicates stays without duplicates |
| `Page.BasePayload` | app/page.tsx:179-198 | the base body has no step number, no plan and no details |
| `Page.StepRefreshPayload` | app/page.tsx:263-268 | the base body with the step number `index + 1`, the current plan and empty details |
| `Page.StepRefreshPayloadExtendsBase` | app/page.tsx:263-268 | the step-refresh body differs from the base body in those three fields only |
| `Page.UnresolvedPayload` | app/page.tsx:315-318 | the base body with the trimmed unresolved details |
| `Page.UnresolvedPayloadExtendsBase` | app/page.tsx:315-318 | the unresolved body differs from the base body in its details only |
| `Page.StepRefreshRoutes` | app/page.tsx:263-268 | the page's step refresh reaches step-refresh mode for the shown step, with empty details |
| `Page.UnresolvedRoutes` | app/page.tsx:315-318 | the unresolved refresh reaches full generation with the trimmed details |
| `Page.BasePayloadRoutes` | app/page.tsx:212-216 | a plain request is a full generation without details |
| `Page.FormSurvivesNormalize` | app/page.tsx:179-198 | in-range numbers and clean chip lists, which every valid form has, reach the prompt unchanged; only a time limit of 0 becomes 10 |
| `Page.ErrorText` | app/page.tsx:228-232 | there is an error text iff the data is an object with an `error` whose string form is not empty |
| `Page.FailureMessage` | app/page.tsx:227-235 | the server's error text, else "Request failed (status)"; never empty |
| `Page.ServerErrorShown` | app/page.tsx:227-235 | a string error from the server is shown as it is |
| `Page.ReplyOutcome` | app/page.tsx:220-243 | a reply is adopted iff it is JSON with an OK status and six steps; otherwise it fails with the non-JSON, server or shape message |
| `Page.HandlerSuccessAdopted` | app/page.tsx:237-245 | whatever the handler returns with 200, the page adopts |
| `Page.HandlerRejectionShown` | app/page.tsx:227-235 | the handler's missing-credential 500 and invalid-body 400 reach the page with their own messages |
| `Page.HandlerShortFieldsShown` | app/page.tsx:227-235 | the handler's 400 for a short trigger or goal reaches the page with its own message |
| `Page.AfterWorking` | app/page.tsx:365-377 | no plan or solved: no change; else the active step becomes working, the others are kept, and the walkthrough advances or, at the last step, is solved |
| `Page.WorkingPresses` | app/page.tsx:365-377 | presses of "Working" keep the position valid |
| `Page.WorkingPressesProgress` | app/page.tsx:365-377 | after `k < 6` presses, steps before `k` are working, the rest unset and `k` is active. The sixth press solves and later presses change nothing; the page hides the buttons on the last step (app/page.tsx:1110), so only a direct call of the function reaches that branch |
| `Page.PreviousIndex` | app/page.tsx:997-999 | the index stays in [0, 5] and steps back unless it is at 0 |
| `Page.NextIndex` | app/page.tsx:1016-1018 | the index stays in [0, 5] and steps on unless it is at 5 |
| `Page.PreviousNextInverse` | app/page.tsx:997-1018 | Previous undoes Next away from the last step, and Next undoes Previous away from the first |
| `Page.Walkthrough.constructor` | app/page.tsx:83-171 | the initial state: Clarify tab, default form, no plan, index 0, six unset statuses |
| `Page.Walkthrough.GetGuidance` | app/page.tsx:200-252 | resets the walkthrough, sends the form, then adopts a six-step plan and switches to Choose, or records the error with no plan |
| `Page.Walkthrough.RefreshCurrentStepOnly` | app/page.tsx:254-310 | nothing without a plan; else marks the active step not working, sends it, and adopts a six-step reply without moving the index, or alerts |
| `Page.Walkthrough.RefreshPlanWithUnresolvedFeedback` | app/page.tsx:312-363 | sends the trimmed details; a six-step reply resets index, statuses, panel, details and solved; a failure only alerts |
| `Page.Walkthrough.MarkStepAndAdvanceWorking` | app/page.tsx:365-377 | the new position is `AfterWorking` of the old one |
| `Page.Walkthrough.Previous` | app/page.tsx:997-999 | `max(0, i - 1)`, keeping the index valid |
| `Page.Walkthrough.Next` | app/page.tsx:1016-1018 | `min(5, i + 1)`, keeping the index valid |
| `Page.Walkthrough.StartOver` | app/page.tsx:962-966 | not solved, index 0, six unset statuses |
| `Page.Walkthrough.ProblemSolved` | app/page.tsx:1165 | the walkthrough is solved |
| `Page.Walkthrough.ToggleUnresolvedPanel` | app/page.tsx:1207 | the details panel is shown iff it was hidden |
| `Page.Walkthrough.EditUnresolvedDetails` | app/page.tsx:1238-1239 | the details become the typed text |
| `Page.Walkthrough.ChooseNoTimeLimit` | app/page.tsx:646-649 | "None" sets no time limit and 0 minutes |
| `Page.Walkthrough.MoveTimeLimit` | app/page.tsx:658-662 | the slider, usable only while "None" is off, sets the minutes and keeps "None" off |
| `Page.Walkthrough.ToggleChip` | app/page.tsx:511-791 | a chip toggles its label in its own list and leaves the other lists alone; the lists stay free of duplicates and blanks. It stands for the four chip groups at app/page.tsx:517, 591, 767 and 788 |
| `Page.Walkthrough.ToggleSecondChild` | app/page.tsx:693 | the second child is switched on or off |
| `Page.Walkthrough.ChooseEnvironment` | app/page.tsx:574 | the environment becomes the chosen one |
| `Page.Walkthrough.EditTriggerGoal` | app/page.tsx:530-549 | the trigger and goal become the typed text |
| `Page.Walkthrough.EditConstraints` | app/page.tsx:801 | the constraints become the typed text |
| `Page.Walkthrough.MoveSliders` | app/page.tsx:625-748 | the intensity and age sliders set their fields within their ranges |

## Left out

- The provider call (`fetch`) and the server call from the page. They are parameters, not modelled I/O.
- Reading `process.env`. The credential is a boolean.
- The `GET` probe (app/api/guidance/route.ts:131-141) and app/api/envcheck/route.ts. They are environment probes.
- The JSON Schema objects and `temperature: 0.35` (a float) in the outbound requests.
- `JSON.stringify` of the user message. The message is kept as a JSON value, so key order is not modelled.
- `JSON.parse` itself. It is a partial function given to the handler. The page's reply arrives already parsed (`Page.ServerReply`).
- JavaScript `Number(...)` coercion of strings, booleans and fractions. A numeric field is missing, `null`, `NaN` or an integer.
- Non-integer step numbers. The handler accepts any finite number in [1, 6]; with a fraction such as 2.5 it would replace no step. The model takes integers only.
- JSON numbers are integers.
- `String(x)` of non-string body fields and of non-string array elements. A string field is a string or missing, and an array's elements are given as the strings they render to.
- String lengths and `slice` count Unicode scalar values, not UTF-16 code units.
- The system prompt's wording is kept as a named prompt and its list of lines. The lines are not joined with newlines in the model.
- The generic `catch` that turns a thrown error into 500 (app/api/guidance/route.ts:579-581).
- `NextResponse.json` throws for a relayed null-body status such as 304, and the `catch` turns that into a 500. The model relays every provider status as it is.
- Rendering, styling, the tab buttons (only the switch to "Choose" is modelled) and the `loading` flag.
- Because `loading` is left out, a button disabled while a request runs is not modelled as disabled.
- A `fetch` from the page that rejects (a network failure). `Page.ServerReply` has no case for it, so the `e.message` that the page shows as `error` or in an alert (app/page.tsx:246-248, 304-306) is not modelled.
- `window.alert`. It is the `alert` out-parameter of the two refresh handlers.
- The asynchrony of the page's handlers. Each runs to completion with the server's reply, and React's batching and functional updates are taken as plain assignments.
- Page.Walkthrough: the fifteen form hooks of the page are kept together in one `form` field of type `Form`. Each form handler replaces that record with one or more fields changed.
- Page.Walkthrough.ToggleChip: takes the label as a parameter. The page offers only its fixed option labels (app/page.tsx:90-154), which are trimmed and non-empty, and the method requires that of the label.
- Page.Walkthrough.MoveSliders: the four range sliders are one method. Each slider sets its own field in the page.

/**
 * Input normalisation of the guidance request: the untrusted body is turned
 * into a scenario whose numbers are defaulted and clamped and whose lists are
 * trimmed and stripped of blanks (app/api/guidance/route.ts:70-82, 159-186).
 */
module Normalize {
  import opened Wrappers
  import opened Text
  import opened Json

  /** What `Number(...)` can see in a numeric body field: the field missing,
      `null`, something that coerces to `NaN`, or an integer. */
  datatype NumField = Absent | NullValue | NaN | IntValue(n: int)

  /** What `normalizeStringArray` can see in a list field: an array (its
      elements as `String` renders them), a string, or anything else. */
  datatype RawList = ListArr(items: seq<string>) | ListText(text: string) | ListOther

  /** The request body as the handler reads it. A string field is `None` when
      it is missing or `null` (both fall to the `??` default); a flag is its
      truthiness. */
  datatype Body = Body(
    parentMoods: RawList,
    trigger: Option<string>,
    goal: Option<string>,
    environmentType: Option<string>,
    intensity: NumField,
    timeLimitNone: bool,
    timeLimitMin: NumField,
    childAge: NumField,
    constraintsNotes: Option<string>,
    childBehaviors: RawList,
    secondChildEnabled: bool,
    secondChildAge: NumField,
    secondChildIntensity: NumField,
    secondChildBehaviors: RawList,
    triedAlready: RawList,
    refreshStepNumber: NumField,
    currentGuidance: Option<Value>,
    notWorkingDetails: Option<string>,
    unresolvedDetails: Option<string>)

  /** The normalised scenario the prompts are built from. */
  datatype Scenario = Scenario(
    parentMoods: seq<string>,
    trigger: string,
    goal: string,
    environmentType: string,
    intensity: int,
    timeLimitNone: bool,
    timeLimitMin: int,
    childAge: int,
    constraintsNotes: string,
    childBehaviors: seq<string>,
    secondChildEnabled: bool,
    secondChildAge: int,
    secondChildIntensity: int,
    secondChildBehaviors: seq<string>,
    triedAlready: seq<string>)

  const DefaultIntensity := 5
  const DefaultTimeLimitMin := 10
  const DefaultChildAge := 7
  const DefaultSecondChildAge := 5
  const DefaultSecondChildIntensity := 5
  const DefaultEnvironment := "Home"

  /** `Math.max(lo, Math.min(hi, n))`. */
  function Clamp(n: int, lo: int, hi: int): (r: int)
    ensures lo <= hi ==> lo <= r <= hi
    ensures lo <= n <= hi ==> r == n
    ensures n < lo ==> r == lo
    ensures lo <= hi < n ==> r == hi
  {
    var m := if n < hi then n else hi;
    if lo < m then m else lo
  }

  lemma ClampIdempotent(n: int, lo: int, hi: int)
    requires lo <= hi
    ensures Clamp(Clamp(n, lo, hi), lo, hi) == Clamp(n, lo, hi)
  {
  }

  /** A field that `Number(x ?? d) || d` sends to the default `d`: missing,
      `null`, `NaN` or zero. */
  predicate TakesDefault(f: NumField)
  {
    !(f.IntValue? && f.n != 0)
  }

  /** `Number(x ?? d) || d`. */
  function Coerce(f: NumField, d: int): (r: int)
    ensures TakesDefault(f) ==> r == d
    ensures !TakesDefault(f) ==> r == f.n
  {
    match f
    case IntValue(n) => if n != 0 then n else d
    case _ => d
  }

  /** `clamp(Number(x ?? d) || d, lo, hi)`. */
  function NumericField(f: NumField, d: int, lo: int, hi: int): (r: int)
    ensures lo <= hi ==> lo <= r <= hi
    ensures TakesDefault(f) ==> r == Clamp(d, lo, hi)
    ensures !TakesDefault(f) ==> r == Clamp(f.n, lo, hi)
  {
    Clamp(Coerce(f, d), lo, hi)
  }

  /** `String(x ?? "").trim()` and its variants with another default. */
  function TrimmedOr(o: Option<string>, d: string): (r: string)
    ensures IsTrimmed(r)
    ensures o.Some? ==> r == Trim(o.value)
    ensures o.None? ==> r == Trim(d)
  {
    Trim(o.GetOr(d))
  }

  /** Every element trimmed and non-empty. */
  predicate CleanList(xs: seq<string>)
  {
    forall k :: 0 <= k < |xs| ==> xs[k] != "" && IsTrimmed(xs[k])
  }

  /** What one element contributes: its trimmed form, unless that is blank. */
  function Kept(x: string): seq<string>
  {
    var t := Trim(x);
    if t == "" then [] else [t]
  }

  /** `xs.map(x => x.trim()).filter(Boolean)`. */
  function NormalizeList(xs: seq<string>): (r: seq<string>)
    ensures CleanList(r)
    ensures |r| <= |xs|
  {
    if xs == [] then [] else Kept(xs[0]) + NormalizeList(xs[1..])
  }

  /** `normalizeStringArray(v)`: an array is trimmed element-wise, a string is
      first split on commas, anything else gives the empty list. */
  function NormalizeStringArray(v: RawList): (r: seq<string>)
    ensures CleanList(r)
    ensures v.ListOther? ==> r == []
  {
    match v
    case ListArr(xs) => NormalizeList(xs)
    case ListText(s) => NormalizeList(SplitOnComma(s))
    case ListOther => []
  }

  /** The scenario built at app/api/guidance/route.ts:159-186. */
  function Normalize(b: Body): (s: Scenario)
    ensures 1 <= s.intensity <= 10
    ensures 0 <= s.timeLimitMin <= 60
    ensures 1 <= s.childAge <= 18
    ensures 1 <= s.secondChildAge <= 18
    ensures 1 <= s.secondChildIntensity <= 10
    ensures IsTrimmed(s.trigger) && IsTrimmed(s.goal)
    ensures IsTrimmed(s.environmentType) && IsTrimmed(s.constraintsNotes)
    ensures CleanList(s.parentMoods) && CleanList(s.childBehaviors)
    ensures CleanList(s.secondChildBehaviors) && CleanList(s.triedAlready)
    ensures s.timeLimitNone == b.timeLimitNone && s.secondChildEnabled == b.secondChildEnabled
  {
    Scenario(
      parentMoods := NormalizeStringArray(b.parentMoods),
      trigger := TrimmedOr(b.trigger, ""),
      goal := TrimmedOr(b.goal, ""),
      environmentType := TrimmedOr(b.environmentType, DefaultEnvironment),
      intensity := NumericField(b.intensity, DefaultIntensity, 1, 10),
      timeLimitNone := b.timeLimitNone,
      timeLimitMin := NumericField(b.timeLimitMin, DefaultTimeLimitMin, 0, 60),
      childAge := NumericField(b.childAge, DefaultChildAge, 1, 18),
      constraintsNotes := TrimmedOr(b.constraintsNotes, ""),
      childBehaviors := NormalizeStringArray(b.childBehaviors),
      secondChildEnabled := b.secondChildEnabled,
      secondChildAge := NumericField(b.secondChildAge, DefaultSecondChildAge, 1, 18),
      secondChildIntensity := NumericField(b.secondChildIntensity, DefaultSecondChildIntensity, 1, 10),
      secondChildBehaviors := NormalizeStringArray(b.secondChildBehaviors),
      triedAlready := NormalizeStringArray(b.triedAlready))
  }

  /** A field that is missing, `null`, `NaN` or zero takes its default;
      a non-zero integer is clamped into range. */
  lemma DefaultsApply(b: Body)
    ensures TakesDefault(b.intensity) ==> Normalize(b).intensity == 5
    ensures TakesDefault(b.timeLimitMin) ==> Normalize(b).timeLimitMin == 10
    ensures TakesDefault(b.childAge) ==> Normalize(b).childAge == 7
    ensures TakesDefault(b.secondChildAge) ==> Normalize(b).secondChildAge == 5
    ensures TakesDefault(b.secondChildIntensity) ==> Normalize(b).secondChildIntensity == 5
    ensures b.environmentType.None? ==> Normalize(b).environmentType == "Home"
    ensures b.intensity == IntValue(15) ==> Normalize(b).intensity == 10
    ensures b.childAge == IntValue(0) ==> Normalize(b).childAge == 7
    ensures b.childAge == IntValue(-3) ==> Normalize(b).childAge == 1
  {
    assert IsTrimmed("Home");
  }

  /** Normalising an array keeps input order: it distributes over
      concatenation. */
  lemma {:induction false} NormalizeListAppend(xs: seq<string>, ys: seq<string>)
    ensures NormalizeList(xs + ys) == NormalizeList(xs) + NormalizeList(ys)
  {
    if xs == [] {
      assert xs + ys == ys;
    } else {
      assert (xs + ys)[0] == xs[0];
      assert (xs + ys)[1..] == xs[1..] + ys;
      NormalizeListAppend(xs[1..], ys);
      calc {
        NormalizeList(xs + ys);
        Kept(xs[0]) + NormalizeList(xs[1..] + ys);
        Kept(xs[0]) + (NormalizeList(xs[1..]) + NormalizeList(ys));
        (Kept(xs[0]) + NormalizeList(xs[1..])) + NormalizeList(ys);
      }
    }
  }

  /** What survives is exactly the trimmed, non-blank inputs. */
  lemma {:induction false} NormalizeListMembership(xs: seq<string>, x: string)
    ensures x in NormalizeList(xs) <==> x != "" && exists k :: 0 <= k < |xs| && Trim(xs[k]) == x
  {
    if xs != [] {
      NormalizeListMembership(xs[1..], x);
      if exists k :: 0 <= k < |xs| && Trim(xs[k]) == x {
        var k :| 0 <= k < |xs| && Trim(xs[k]) == x;
        if k > 0 { assert Trim(xs[1..][k - 1]) == x; }
      }
      if exists k :: 0 <= k < |xs[1..]| && Trim(xs[1..][k]) == x {
        var k :| 0 <= k < |xs[1..]| && Trim(xs[1..][k]) == x;
        assert Trim(xs[k + 1]) == x;
      }
    }
  }

  /** A list that is already clean comes back unchanged. */
  lemma {:induction false} NormalizeCleanList(xs: seq<string>)
    requires CleanList(xs)
    ensures NormalizeList(xs) == xs
  {
    if xs != [] {
      NormalizeCleanList(xs[1..]);
      assert [xs[0]] + xs[1..] == xs;
    }
  }

  lemma NormalizeSingleton(x: string)
    ensures NormalizeList([x]) == Kept(x)
  {
    assert [x][1..] == [];
  }

  lemma KeptBlank()
    ensures Kept(" ") == []
  {
    assert TrimStart(" ") == "";
  }

  /** Duplicates are kept: there is no deduplication of an array. A word and
      the same word padded with spaces both survive, as the same entry. */
  lemma KeepsDuplicatesInArray(x: string)
    requires x != "" && IsTrimmed(x)
    ensures NormalizeStringArray(ListArr([x, " " + x + " "])) == [x, x]
  {
    var xs := [x, " " + x + " "];
    assert xs[1..] == [" " + x + " "];
    TrimPadded(x);
    NormalizeSingleton(" " + x + " ");
    assert NormalizeList(xs) == Kept(x) + NormalizeList([" " + x + " "]);
  }

  /** A word, a blank and the word again normalise to the word twice. */
  lemma NormalizeWordBlankWord(x: string)
    requires x != "" && IsTrimmed(x)
    ensures NormalizeList([x, " ", x]) == [x, x]
  {
    KeptBlank();
    NormalizeListAppend([x], [" ", x]);
    NormalizeListAppend([" "], [x]);
    NormalizeSingleton(x);
    NormalizeSingleton(" ");
    assert [x] + ([" "] + [x]) == [x, " ", x];
  }

  /** `"x, ,x"` splits into the word, a blank and the word. */
  lemma SplitWordBlankWord(x: string)
    requires ',' !in x
    ensures SplitOnComma(x + ", ," + x) == [x, " ", x]
  {
    var parts := [x, " ", x];
    SplitJoinOnComma(parts);
    assert parts[1..][1..] == [x];
    assert Join(parts[1..], ",") == " " + "," + x;
    assert x + "," + (" " + "," + x) == x + ", ," + x;
  }

  /** Nor of the pieces of a comma-separated string; blank pieces go:
      `"x, ,x"` gives `[x, x]`. */
  lemma KeepsDuplicatesInText(x: string)
    requires x != "" && IsTrimmed(x) && ',' !in x
    ensures NormalizeStringArray(ListText(x + ", ," + x)) == [x, x]
  {
    SplitWordBlankWord(x);
    NormalizeWordBlankWord(x);
  }

  /** A string without commas is one trimmed entry, or none when blank. */
  lemma NormalizeTextWithoutComma(s: string)
    requires ',' !in s
    ensures NormalizeStringArray(ListText(s)) == if Trim(s) == "" then [] else [Trim(s)]
  {
    SplitWithoutComma(s);
  }

  /** A scenario written back into a body, as a caller resending it would. */
  function Reencode(s: Scenario): Body
  {
    Body(ListArr(s.parentMoods), Some(s.trigger), Some(s.goal), Some(s.environmentType),
         IntValue(s.intensity), s.timeLimitNone, IntValue(s.timeLimitMin), IntValue(s.childAge),
         Some(s.constraintsNotes), ListArr(s.childBehaviors), s.secondChildEnabled,
         IntValue(s.secondChildAge), IntValue(s.secondChildIntensity),
         ListArr(s.secondChildBehaviors), ListArr(s.triedAlready), Absent, None, None, None)
  }

  /** An in-range number comes back unchanged, except zero, which takes the
      default. */
  lemma NumericFieldStable(n: int, d: int, lo: int, hi: int)
    requires lo <= n <= hi && lo <= d <= hi
    ensures NumericField(IntValue(n), d, lo, hi) == if n == 0 then d else n
  {
  }

  /** Normalising a normalised scenario again changes nothing, except a time
      limit of zero, which the `|| 10` fallback turns back into 10. */
  lemma NormalizeStable(b: Body)
    ensures var s := Normalize(b);
            var s2 := Normalize(Reencode(s));
            s2 == s.(timeLimitMin := s2.timeLimitMin) &&
            s2.timeLimitMin == (if s.timeLimitMin == 0 then 10 else s.timeLimitMin)
  {
    var s := Normalize(b);
    var b2 := Reencode(s);
    var s2 := Normalize(b2);
    NormalizeCleanList(s.parentMoods);
    NormalizeCleanList(s.childBehaviors);
    NormalizeCleanList(s.secondChildBehaviors);
    NormalizeCleanList(s.triedAlready);
    assert s2.parentMoods == s.parentMoods && s2.childBehaviors == s.childBehaviors;
    assert s2.secondChildBehaviors == s.secondChildBehaviors && s2.triedAlready == s.triedAlready;
    assert s2.trigger == s.trigger && s2.goal == s.goal;
    assert s2.environmentType == s.environmentType && s2.constraintsNotes == s.constraintsNotes;
    NumericFieldStable(s.intensity, 5, 1, 10);
    NumericFieldStable(s.timeLimitMin, 10, 0, 60);
    NumericFieldStable(s.childAge, 7, 1, 18);
    NumericFieldStable(s.secondChildAge, 5, 1, 18);
    NumericFieldStable(s.secondChildIntensity, 5, 1, 10);
  }

  /** A negative time limit clamps to 0, and sending the 0 back yields 10:
      normalisation is not idempotent on this field. */
  lemma TimeLimitNotStable(b: Body)
    requires b.timeLimitMin == IntValue(-5)
    ensures Normalize(b).timeLimitMin == 0
    ensures Normalize(Reencode(Normalize(b))).timeLimitMin == 10
  {
  }
}

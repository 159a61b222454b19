/**
 * The affective homeostat: four scalars that decay toward calm and are bumped by what just happened,
 * the sampling they ask for, and the intervention they force.
 *
 * Arithmetic is over the reals. A fingerprint is any function of the text, and what reads as an
 * error any predicate on it.
 */
module Affective {
  import opened Wrappers

  datatype Mood = Mood(frustration: real, satisfaction: real, boredom: real, urgency: real,
                       lastToolResult: string, lastAssistant: string, lastAction: string)

  const CALM_MOOD := Mood(0.0, 0.0, 0.0, 0.0, [], [], [])

  datatype Observed = Observed(toolResult: Option<string>, action: Option<string>, assistantText: Option<string>,
                               acted: bool)

  /** What the texts are compared and judged by. */
  datatype Reader = Reader(fingerprint: string -> string, isError: string -> bool)

  const DECAY := 0.55
  const CURIOSITY_FLOOR := 0.12
  const TEMP_UP := 0.45
  const TEMP_DOWN := 0.25
  const TEMP_FLOOR := 0.2
  const TEMP_CEIL := 1.15
  const TOOL_TEMP_CEIL := 0.6
  const TOPP_UP := 0.1
  const TOPP_DOWN := 0.05
  const FREQ_MAX := 0.5
  const PRES_MAX := 0.5
  const PENALTY_CEIL := 2.0
  const FRUST_INTERVENE := 0.7
  const URGENCY_INTERVENE := 0.8

  function Clamp(x: real, lo: real, hi: real): real {
    if x < lo then lo else if x > hi then hi else x
  }

  function Unit(x: real): real {
    Clamp(x, 0.0, 1.0)
  }

  // ---- what a step shows ----

  predicate SameResult(read: Reader, mood: Mood, seen: Observed) {
    seen.toolResult.Some? && read.fingerprint(seen.toolResult.value) == mood.lastToolResult
  }

  /** A result that is not the last one, when there was one. */
  predicate Progress(read: Reader, mood: Mood, seen: Observed) {
    seen.toolResult.Some? && !SameResult(read, mood, seen) && mood.lastToolResult != []
  }

  predicate SameAction(read: Reader, mood: Mood, seen: Observed) {
    seen.action.Some? && read.fingerprint(seen.action.value) == mood.lastAction
  }

  predicate OnlyTalked(seen: Observed) {
    !seen.acted && seen.assistantText.Some?
  }

  predicate SameTalk(read: Reader, mood: Mood, seen: Observed) {
    OnlyTalked(seen) && read.fingerprint(seen.assistantText.value) == mood.lastAssistant
  }

  // ---- one step, scalar by scalar ----

  function Bump(x: real, happens: bool, amount: real): real {
    if happens then Unit(x + amount) else x
  }

  function Frustration(read: Reader, mood: Mood, seen: Observed): real {
    var broke := Bump(mood.frustration * DECAY, seen.toolResult.Some? && read.isError(seen.toolResult.value), 0.4);
    var stuck := Bump(broke, SameResult(read, mood, seen), 0.3);
    var relieved := if Progress(read, mood, seen) then stuck * 0.5 else stuck;
    Bump(Bump(relieved, SameAction(read, mood, seen), 0.3), SameTalk(read, mood, seen), 0.2)
  }

  function Satisfaction(read: Reader, mood: Mood, seen: Observed): real {
    Bump(mood.satisfaction * DECAY, Progress(read, mood, seen), 0.4)
  }

  function Boredom(read: Reader, mood: Mood, seen: Observed): real {
    var stuck := Bump(mood.boredom * DECAY, SameResult(read, mood, seen), 0.3);
    Bump(Bump(stuck, SameAction(read, mood, seen), 0.2), SameTalk(read, mood, seen), 0.4)
  }

  function Urgency(read: Reader, mood: Mood, seen: Observed): real {
    var reset := if Progress(read, mood, seen) then 0.0 else mood.urgency;
    Unit(Bump(Bump(reset, seen.acted, -0.2), OnlyTalked(seen), 0.1) + 0.15)
  }

  function Remembered(read: Reader, was: string, text: Option<string>): string {
    if text.Some? then read.fingerprint(text.value) else was
  }

  function Appraised(read: Reader, mood: Mood, seen: Observed): Mood {
    Mood(Frustration(read, mood, seen), Satisfaction(read, mood, seen), Boredom(read, mood, seen),
         Urgency(read, mood, seen),
         Remembered(read, mood.lastToolResult, seen.toolResult),
         if OnlyTalked(seen) then read.fingerprint(seen.assistantText.value) else mood.lastAssistant,
         Remembered(read, mood.lastAction, seen.action))
  }

  /** One step, event by event. */
  method AppraiseObserved(read: Reader, mood: Mood, seen: Observed) returns (after: Mood)
    ensures after == Appraised(read, mood, seen)
  {
    var frustration, satisfaction, boredom := mood.frustration * DECAY, mood.satisfaction * DECAY, mood.boredom * DECAY;
    var urgency := mood.urgency;
    var lastToolResult, lastAssistant, lastAction := mood.lastToolResult, mood.lastAssistant, mood.lastAction;
    if seen.toolResult.Some? {
      var hash := read.fingerprint(seen.toolResult.value);
      if read.isError(seen.toolResult.value) {
        frustration := Unit(frustration + 0.4);
      }
      if hash == lastToolResult {
        frustration := Unit(frustration + 0.3);
        boredom := Unit(boredom + 0.3);
      } else if lastToolResult != [] {
        satisfaction := Unit(satisfaction + 0.4);
        frustration := frustration * 0.5;
        urgency := 0.0;
      }
      lastToolResult := hash;
    }
    if seen.action.Some? {
      var hash := read.fingerprint(seen.action.value);
      if hash == lastAction {
        frustration := Unit(frustration + 0.3);
        boredom := Unit(boredom + 0.2);
      }
      lastAction := hash;
    }
    if seen.acted {
      urgency := Unit(urgency - 0.2);
    } else if seen.assistantText.Some? {
      urgency := Unit(urgency + 0.1);
      var hash := read.fingerprint(seen.assistantText.value);
      if hash == lastAssistant {
        boredom := Unit(boredom + 0.4);
        frustration := Unit(frustration + 0.2);
      }
      lastAssistant := hash;
    }
    urgency := Unit(urgency + 0.15);
    return Mood(frustration, satisfaction, boredom, urgency, lastToolResult, lastAssistant, lastAction);
  }

  datatype Redirect = TryAnotherWay | TakeAConcreteStep

  function Intervention(mood: Mood): Option<Redirect> {
    if mood.frustration >= FRUST_INTERVENE then Some(TryAnotherWay)
    else if mood.urgency >= URGENCY_INTERVENE then Some(TakeAConcreteStep)
    else None
  }

  // ---- over whole runs ----

  function Run(read: Reader, mood: Mood, steps: seq<Observed>): Mood
    decreases |steps|
  {
    if steps == [] then mood else Run(read, Appraised(read, mood, steps[0]), steps[1..])
  }

  predicate InUnit(mood: Mood) {
    && 0.0 <= mood.frustration <= 1.0 && 0.0 <= mood.satisfaction <= 1.0
    && 0.0 <= mood.boredom <= 1.0 && 0.0 <= mood.urgency <= 1.0
  }

  lemma StepStaysInUnit(read: Reader, mood: Mood, seen: Observed)
    requires InUnit(mood)
    ensures InUnit(Appraised(read, mood, seen))
  {}

  /** From calm, or from any mood already in range, every scalar stays within 0 and 1 for ever. */
  lemma {:induction false} RunStaysInUnit(read: Reader, mood: Mood, steps: seq<Observed>)
    requires InUnit(mood)
    ensures InUnit(Run(read, mood, steps))
    decreases |steps|
  {
    if steps != [] {
      StepStaysInUnit(read, mood, steps[0]);
      RunStaysInUnit(read, Appraised(read, mood, steps[0]), steps[1..]);
    }
  }

  /** The mood every session starts from is in range, and so is every mood it leads to. */
  lemma RunFromCalmStaysInUnit(read: Reader, steps: seq<Observed>)
    ensures InUnit(Run(read, CALM_MOOD, steps))
  {
    RunStaysInUnit(read, CALM_MOOD, steps);
  }

  predicate Repeats(read: Reader, mood: Mood, seen: Observed) {
    SameResult(read, mood, seen) && SameAction(read, mood, seen)
  }

  /** From any mood in range, two steps in a row that repeat both action and result force the redirect. */
  lemma RepeatingTwiceForcesARedirect(read: Reader, mood: Mood, first: Observed, second: Observed)
    requires InUnit(mood)
    requires Repeats(read, mood, first) && Repeats(read, Appraised(read, mood, first), second)
    ensures Intervention(Appraised(read, Appraised(read, mood, first), second)) == Some(TryAnotherWay)
  {
    RepeatingFrustrates(read, mood, first);
    StepStaysInUnit(read, mood, first);
    RepeatingFrustrates(read, Appraised(read, mood, first), second);
  }

  lemma RepeatingFrustrates(read: Reader, mood: Mood, seen: Observed)
    requires InUnit(mood) && Repeats(read, mood, seen)
    ensures Appraised(read, mood, seen).frustration >= Unit(mood.frustration * DECAY + 0.6)
  {}

  /** Doing and getting the very same thing three times running is that, from any mood in range. */
  lemma ThreeAlikeForceARedirect(read: Reader, mood: Mood, seen: Observed)
    requires InUnit(mood) && seen.toolResult.Some? && seen.action.Some?
    ensures Intervention(Run(read, mood, [seen, seen, seen])) == Some(TryAnotherWay)
  {
    var once := Appraised(read, mood, seen);
    StepStaysInUnit(read, mood, seen);
    RepeatingTwiceForcesARedirect(read, once, seen, seen);
    assert [seen, seen, seen][1..] == [seen, seen] && [seen, seen][1..] == [seen] && [seen][1..] == [];
    assert Run(read, once, [seen, seen]) == Run(read, Appraised(read, once, seen), [seen]);
  }

  function Least(a: real, b: real): real { if a <= b then a else b }

  /** These steps only talk, and none brings a new result. */
  predicate TalksWithoutProgress(read: Reader, mood: Mood, steps: seq<Observed>)
    decreases |steps|
  {
    steps == []
    || (OnlyTalked(steps[0]) && !Progress(read, mood, steps[0])
        && TalksWithoutProgress(read, Appraised(read, mood, steps[0]), steps[1..]))
  }

  /** Talk builds pressure: a quarter of the scale each step, until the top. */
  lemma {:induction false} TalkBuildsUrgency(read: Reader, mood: Mood, steps: seq<Observed>)
    requires InUnit(mood) && TalksWithoutProgress(read, mood, steps)
    ensures Run(read, mood, steps).urgency == Least(1.0, mood.urgency + |steps| as real / 4.0)
    decreases |steps|
  {
    if steps != [] {
      StepStaysInUnit(read, mood, steps[0]);
      TalkBuildsUrgency(read, Appraised(read, mood, steps[0]), steps[1..]);
      assert Appraised(read, mood, steps[0]).urgency == Least(1.0, mood.urgency + 0.25);
      assert (|steps| - 1) as real / 4.0 + 0.25 == |steps| as real / 4.0;
    }
  }

  /** Four such steps always bring some redirect. */
  lemma FourTalksForceARedirect(read: Reader, mood: Mood, steps: seq<Observed>)
    requires InUnit(mood) && TalksWithoutProgress(read, mood, steps) && |steps| >= 4
    ensures Intervention(Run(read, mood, steps)).Some?
  {
    TalkBuildsUrgency(read, mood, steps);
    assert |steps| as real / 4.0 >= 1.0;
  }

  /** Acting eases the clock: steps that all act never bring on the redirect for lack of action. */
  lemma {:induction false} ActingNeverBuildsUrgency(read: Reader, mood: Mood, steps: seq<Observed>)
    requires InUnit(mood) && mood.urgency < URGENCY_INTERVENE && forall s | s in steps :: s.acted
    ensures Run(read, mood, steps).urgency < URGENCY_INTERVENE
    ensures Intervention(Run(read, mood, steps)) != Some(TakeAConcreteStep)
    decreases |steps|
  {
    if steps != [] {
      assert steps[0] in steps;
      StepStaysInUnit(read, mood, steps[0]);
      ActingNeverBuildsUrgency(read, Appraised(read, mood, steps[0]), steps[1..]);
    }
  }

  /** x after n decays. */
  function Faded(x: real, n: nat): real
    decreases n
  {
    if n == 0 then x else Faded(x * DECAY, n - 1)
  }

  function Power(n: nat): real {
    if n == 0 then 1.0 else DECAY * Power(n - 1)
  }

  lemma {:induction false} FadedIsThePower(x: real, n: nat)
    ensures Faded(x, n) == x * Power(n)
    decreases n
  {
    if n > 0 {
      FadedIsThePower(x * DECAY, n - 1);
    }
  }

  /** Nothing came back, nothing was done, nothing was said. */
  predicate Quiet(seen: Observed) {
    seen.toolResult.None? && seen.action.None? && seen.assistantText.None?
  }

  lemma QuietStep(read: Reader, mood: Mood, seen: Observed)
    requires InUnit(mood) && Quiet(seen)
    ensures var after := Appraised(read, mood, seen);
            && after.frustration == mood.frustration * DECAY && after.satisfaction == mood.satisfaction * DECAY
            && after.boredom == mood.boredom * DECAY
  {}

  /** Left alone, every emotion fades by the same factor each step. */
  lemma {:induction false} QuietFades(read: Reader, mood: Mood, steps: seq<Observed>)
    requires InUnit(mood) && forall s | s in steps :: Quiet(s)
    ensures var after := Run(read, mood, steps);
            && after.frustration == Faded(mood.frustration, |steps|)
            && after.satisfaction == Faded(mood.satisfaction, |steps|)
            && after.boredom == Faded(mood.boredom, |steps|)
    decreases |steps|
  {
    if steps != [] {
      assert steps[0] in steps;
      StepStaysInUnit(read, mood, steps[0]);
      QuietStep(read, mood, steps[0]);
      QuietFades(read, Appraised(read, mood, steps[0]), steps[1..]);
    }
  }

  /** A genuinely new result resets the clock and relieves: no redirect follows for lack of action. */
  lemma ProgressRelieves(read: Reader, mood: Mood, seen: Observed)
    requires InUnit(mood) && Progress(read, mood, seen)
    ensures var after := Appraised(read, mood, seen);
            && after.urgency == (if OnlyTalked(seen) then 0.25 else 0.15)
            && after.satisfaction >= 0.4 && after.satisfaction >= mood.satisfaction * DECAY
            && Intervention(after) != Some(TakeAConcreteStep)
            && (!SameAction(read, mood, seen) && !SameTalk(read, mood, seen)
                ==> after.frustration <= 0.5 && Intervention(after) == None)
  {}

  // ---- sampling ----

  datatype Base = Base(temperature: Option<real>, topP: Option<real>, topK: Option<real>,
                       frequencyPenalty: Option<real>, presencePenalty: Option<real>, toolTempCeil: Option<real>)

  datatype Sampling = Sampling(temperature: real, topP: real, topK: Option<int>, frequencyPenalty: real,
                               presencePenalty: real)

  function Or(x: Option<real>, default: real): real {
    if x.Some? then x.value else default
  }

  /** To the nearest whole number, half up. */
  function Round(x: real): int {
    (x + 0.5).Floor
  }

  function Round3(x: real): real {
    Round(x * 1000.0) as real / 1000.0
  }

  function Explore(mood: Mood): real {
    Unit(0.6 * mood.frustration + 0.4 * mood.boredom + CURIOSITY_FLOOR)
  }

  function FrequencyPenalty(mood: Mood, base: real): real {
    Clamp(base + 0.3 * mood.boredom + 0.15 * mood.frustration, base, Least(PENALTY_CEIL, base + FREQ_MAX))
  }

  function PresencePenalty(mood: Mood, base: real): real {
    Clamp(base + 0.2 * mood.boredom, base, Least(PENALTY_CEIL, base + PRES_MAX))
  }

  function Temperature(mood: Mood, base: Base): real {
    Clamp(Or(base.temperature, 0.7) + TEMP_UP * Explore(mood) - TEMP_DOWN * mood.satisfaction - 0.15 * mood.urgency,
          TEMP_FLOOR, TEMP_CEIL)
  }

  function TopP(mood: Mood, base: Base): real {
    Clamp(Or(base.topP, 0.95) + TOPP_UP * Explore(mood) - TOPP_DOWN * mood.satisfaction, 0.5, 1.0)
  }

  function ToSampling(mood: Mood, base: Base, toolsPresent: bool, extended: bool): Sampling {
    var out := Sampling(
      Round3(Temperature(mood, base)), Round3(TopP(mood, base)),
      if extended
      then Some(Round(Clamp(Or(base.topK, 40.0) + 60.0 * Explore(mood) - 20.0 * mood.satisfaction, 10.0, 120.0)))
      else None,
      Round3(FrequencyPenalty(mood, Or(base.frequencyPenalty, 0.0))),
      Round3(PresencePenalty(mood, Or(base.presencePenalty, 0.0))));
    if toolsPresent then
      out.(temperature := Round3(Least(out.temperature, Or(base.toolTempCeil, TOOL_TEMP_CEIL))),
           topP := Round3(Least(out.topP, 0.9)))
    else out
  }

  /**
   * Before rounding, each penalty rises from its baseline by at most the headroom and never above
   * the scale, exactly when the baseline is itself on the scale; one above it is pulled down to it.
   */
  lemma UnroundedPenaltiesRise(mood: Mood, base: real)
    requires InUnit(mood)
    ensures (base <= FrequencyPenalty(mood, base) <= Least(PENALTY_CEIL, base + FREQ_MAX)) <==> base <= PENALTY_CEIL
    ensures (base <= PresencePenalty(mood, base) <= Least(PENALTY_CEIL, base + PRES_MAX)) <==> base <= PENALTY_CEIL
    ensures base > PENALTY_CEIL ==> FrequencyPenalty(mood, base) == PENALTY_CEIL == PresencePenalty(mood, base)
  {}

  lemma RoundMonotone(x: real, y: real)
    requires x <= y
    ensures Round3(x) <= Round3(y)
  {
    assert (x * 1000.0 + 0.5).Floor <= (y * 1000.0 + 0.5).Floor;
  }

  lemma RoundKeepsThousandths(n: int)
    ensures Round3(n as real / 1000.0) == n as real / 1000.0
  {
    assert n as real / 1000.0 * 1000.0 == n as real;
    assert (n as real + 0.5).Floor == n;
  }

  lemma RoundedWithin(x: real, lo: int, hi: int)
    requires lo as real / 1000.0 <= x <= hi as real / 1000.0
    ensures lo as real / 1000.0 <= Round3(x) <= hi as real / 1000.0
  {
    RoundMonotone(lo as real / 1000.0, x);
    RoundMonotone(x, hi as real / 1000.0);
    RoundKeepsThousandths(lo);
    RoundKeepsThousandths(hi);
  }

  /** A baseline on the scale that rounding to three places does not lower. */
  predicate Holds(base: real) {
    base <= PENALTY_CEIL && Round3(base) >= base
  }

  lemma RoundedPenaltiesRise(mood: Mood, base: real)
    requires InUnit(mood) && Holds(base)
    ensures base <= Round3(FrequencyPenalty(mood, base)) <= Round3(Least(PENALTY_CEIL, base + FREQ_MAX))
    ensures base <= Round3(PresencePenalty(mood, base)) <= Round3(Least(PENALTY_CEIL, base + PRES_MAX))
  {
    UnroundedPenaltiesRise(mood, base);
    RoundMonotone(base, FrequencyPenalty(mood, base));
    RoundMonotone(FrequencyPenalty(mood, base), Least(PENALTY_CEIL, base + FREQ_MAX));
    RoundMonotone(base, PresencePenalty(mood, base));
    RoundMonotone(PresencePenalty(mood, base), Least(PENALTY_CEIL, base + PRES_MAX));
  }

  /** Calm itself lowers every baseline that does not hold. */
  lemma CalmLowersTheRest(base: real)
    requires !Holds(base)
    ensures Round3(FrequencyPenalty(CALM_MOOD, base)) < base && Round3(PresencePenalty(CALM_MOOD, base)) < base
  {
    if base > PENALTY_CEIL {
      RoundKeepsThousandths(2000);
      UnroundedPenaltiesRise(CALM_MOOD, base);
    }
  }

  function FrequencyBase(base: Base): real { Or(base.frequencyPenalty, 0.0) }
  function PresenceBase(base: Base): real { Or(base.presencePenalty, 0.0) }

  predicate RaisesPenalties(mood: Mood, base: Base, toolsPresent: bool, extended: bool) {
    var out := ToSampling(mood, base, toolsPresent, extended);
    out.frequencyPenalty >= FrequencyBase(base) && out.presencePenalty >= PresenceBase(base)
  }

  /**
   * What is returned never falls below the baselines, in any mood in range, if and only if both are at
   * most 2 and are not lowered by rounding to three places.
   */
  lemma PenaltiesRiseExactly(base: Base, toolsPresent: bool, extended: bool)
    ensures (forall mood | InUnit(mood) :: RaisesPenalties(mood, base, toolsPresent, extended))
            <==> Holds(FrequencyBase(base)) && Holds(PresenceBase(base))
  {
    if Holds(FrequencyBase(base)) && Holds(PresenceBase(base)) {
      forall mood | InUnit(mood) ensures RaisesPenalties(mood, base, toolsPresent, extended) {
        RoundedPenaltiesRise(mood, FrequencyBase(base));
        RoundedPenaltiesRise(mood, PresenceBase(base));
      }
    } else {
      if !Holds(FrequencyBase(base)) {
        CalmLowersTheRest(FrequencyBase(base));
      } else {
        CalmLowersTheRest(PresenceBase(base));
      }
      assert InUnit(CALM_MOOD) && !RaisesPenalties(CALM_MOOD, base, toolsPresent, extended);
    }
  }

  function BothPenalties(base: real): Base {
    Base(None, None, None, Some(base), Some(base), None)
  }

  /** 1.0004 is on the scale and comes back as 1. */
  lemma RoundingLowersAPenalty()
    ensures var out := ToSampling(CALM_MOOD, BothPenalties(1.0004), false, false);
            out.frequencyPenalty == 1.0 == out.presencePenalty
  {
    assert (1.0004 * 1000.0 + 0.5).Floor == 1000;
  }

  /** 2.5 is above the scale and comes back as 2. */
  lemma TheScaleLowersAPenalty()
    ensures var out := ToSampling(CALM_MOOD, BothPenalties(2.5), false, false);
            out.frequencyPenalty == 2.0 == out.presencePenalty
  {
    UnroundedPenaltiesRise(CALM_MOOD, 2.5);
    RoundKeepsThousandths(2000);
  }

  /** Rounded and all, no mood and no baseline takes the sampling out of its band. */
  lemma SamplingStaysInBand(mood: Mood, base: Base, toolsPresent: bool, extended: bool)
    ensures var out := ToSampling(mood, base, toolsPresent, extended);
            && (!toolsPresent ==> TEMP_FLOOR <= out.temperature <= TEMP_CEIL)
            && 0.5 <= out.topP <= (if toolsPresent then 0.9 else 1.0)
            && (toolsPresent && base.toolTempCeil.None? ==> TEMP_FLOOR <= out.temperature <= TOOL_TEMP_CEIL)
            && (out.topK.Some? <==> extended) && (extended ==> 10 <= out.topK.value <= 120)
  {
    RoundedWithin(Temperature(mood, base), 200, 1150);
    RoundedWithin(TopP(mood, base), 500, 1000);
    var topP := Round3(TopP(mood, base));
    RoundedWithin(Least(topP, 0.9), 500, 900);
    var temperature := Round3(Temperature(mood, base));
    if base.toolTempCeil.None? {
      RoundedWithin(Least(temperature, TOOL_TEMP_CEIL), 200, 600);
    }
  }

  /** Second has reason to explore where first has not: more frustrated or bored, less satisfied, less pressed. */
  predicate MoreRestless(first: Mood, second: Mood) {
    && first.frustration <= second.frustration && first.boredom <= second.boredom
    && first.satisfaction >= second.satisfaction && first.urgency >= second.urgency
  }

  /** Of two moods in range the more restless never makes the sampling tighter, whatever the baseline. */
  lemma RestlessnessLoosens(first: Mood, second: Mood, base: Base, toolsPresent: bool, extended: bool)
    requires InUnit(first) && InUnit(second) && MoreRestless(first, second)
    ensures var a := ToSampling(first, base, toolsPresent, extended);
            var b := ToSampling(second, base, toolsPresent, extended);
            && a.temperature <= b.temperature && a.topP <= b.topP
            && (extended ==> a.topK.value <= b.topK.value)
            && a.frequencyPenalty <= b.frequencyPenalty && a.presencePenalty <= b.presencePenalty
  {
    RoundMonotone(Temperature(first, base), Temperature(second, base));
    RoundMonotone(TopP(first, base), TopP(second, base));
    RoundMonotone(FrequencyPenalty(first, FrequencyBase(base)), FrequencyPenalty(second, FrequencyBase(base)));
    RoundMonotone(PresencePenalty(first, PresenceBase(base)), PresencePenalty(second, PresenceBase(base)));
    var a, b := ToSampling(first, base, false, extended), ToSampling(second, base, false, extended);
    var ceil := Or(base.toolTempCeil, TOOL_TEMP_CEIL);
    RoundMonotone(Least(a.temperature, ceil), Least(b.temperature, ceil));
    RoundMonotone(Least(a.topP, 0.9), Least(b.topP, 0.9));
  }

  const NO_BASE := Base(None, None, None, None, None, None)

  lemma Thousandths(x: real, n: int)
    requires n as real - 0.5 <= x * 1000.0 < n as real + 0.5
    ensures Round3(x) == n as real / 1000.0
  {
    assert (x * 1000.0 + 0.5).Floor == n;
  }

  /** Calm, and each scalar alone at its height, on the defaults. */
  lemma EachScalarPullsItsWay()
    ensures ToSampling(CALM_MOOD, NO_BASE, false, true) == Sampling(0.754, 0.962, Some(47), 0.0, 0.0)
    ensures ToSampling(CALM_MOOD.(frustration := 1.0), NO_BASE, false, true)
         == Sampling(1.024, 1.0, Some(83), 0.15, 0.0)
    ensures ToSampling(CALM_MOOD.(boredom := 1.0), NO_BASE, false, true) == Sampling(0.934, 1.0, Some(71), 0.3, 0.2)
    ensures ToSampling(CALM_MOOD.(satisfaction := 1.0), NO_BASE, false, true)
         == Sampling(0.504, 0.912, Some(27), 0.0, 0.0)
    ensures ToSampling(CALM_MOOD.(urgency := 1.0), NO_BASE, false, true) == Sampling(0.604, 0.962, Some(47), 0.0, 0.0)
    ensures ToSampling(CALM_MOOD, NO_BASE, true, false) == Sampling(0.6, 0.9, None, 0.0, 0.0)
  {
    Thousandths(0.754, 754);
    Thousandths(0.962, 962);
    Thousandths(0.6, 600);
    Thousandths(0.9, 900);
    Thousandths(0.0, 0);
    Thousandths(1.024, 1024);
    Thousandths(1.0, 1000);
    Thousandths(0.15, 150);
    Thousandths(0.934, 934);
    Thousandths(0.3, 300);
    Thousandths(0.2, 200);
    Thousandths(0.504, 504);
    Thousandths(0.912, 912);
    Thousandths(0.604, 604);
  }

  /** What each event does by itself to a mood without emotions, whatever it remembers. */
  lemma EachEventBumps(read: Reader, mood: Mood, text: string)
    requires mood.frustration == mood.satisfaction == mood.boredom == mood.urgency == 0.0
    ensures var after := Appraised(read, mood, Observed(Some(text), None, None, true));
            var known, fails := read.fingerprint(text) == mood.lastToolResult, read.isError(text);
            && after.boredom == (if known then 0.3 else 0.0)
            && after.satisfaction == (if !known && mood.lastToolResult != [] then 0.4 else 0.0)
            && after.frustration
               == (if fails && known then 0.7 else if known then 0.3
                   else if fails && mood.lastToolResult != [] then 0.2 else if fails then 0.4 else 0.0)
            && after.urgency == 0.15
    ensures var after := Appraised(read, mood, Observed(None, Some(text), None, true));
            var known := read.fingerprint(text) == mood.lastAction;
            && after.frustration == (if known then 0.3 else 0.0) && after.boredom == (if known then 0.2 else 0.0)
            && after.satisfaction == 0.0 && after.urgency == 0.15
    ensures var after := Appraised(read, mood, Observed(None, None, Some(text), false));
            var known := read.fingerprint(text) == mood.lastAssistant;
            && after.frustration == (if known then 0.2 else 0.0) && after.boredom == (if known then 0.4 else 0.0)
            && after.satisfaction == 0.0 && after.urgency == 0.25
  {}

  /** Saying the same twice running bores, whatever the mood before. */
  lemma RepeatedTalkBores(read: Reader, mood: Mood, text: string)
    requires InUnit(mood)
    ensures var talk := Observed(None, None, Some(text), false);
            var after := Appraised(read, Appraised(read, mood, talk), talk);
            after.boredom >= 0.4 && after.frustration >= 0.2 && after.urgency >= 0.5
  {}

  /** What was shown is remembered until the same kind is shown again; what is said while acting is not. */
  lemma RemembersTheLast(read: Reader, mood: Mood, seen: Observed)
    ensures var after := Appraised(read, mood, seen);
            && after.lastToolResult
               == (if seen.toolResult.Some? then read.fingerprint(seen.toolResult.value) else mood.lastToolResult)
            && after.lastAction == (if seen.action.Some? then read.fingerprint(seen.action.value) else mood.lastAction)
            && after.lastAssistant
               == (if seen.assistantText.Some? && !seen.acted then read.fingerprint(seen.assistantText.value)
                   else mood.lastAssistant)
  {}

  /** The stronger redirect comes first. */
  lemma RedirectsInNumbers(mood: Mood)
    ensures Intervention(mood) == if mood.frustration >= 0.7 then Some(TryAnotherWay)
                                  else if mood.urgency >= 0.8 then Some(TakeAConcreteStep) else None
  {}
}

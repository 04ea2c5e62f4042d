/** The funnel progress widget shown on a lead (lead-pipeline.component.ts):
    the nine steps it draws, which of them are active, completed or current,
    the progress percentage and the texts it shows for the current stage.
    The component's own `PipelineStage` enum has the same nine values as the
    one in pipeline-helpers.ts, so both are the `Pipeline.Stage` datatype.
    The Russian texts are kept exactly as the file stores them (the file
    holds them in a mis-decoded form). */
module LeadPipeline {
  import opened Js
  import opened Pipeline

  /** A step of `pipelineSteps`, reduced to the fields the logic reads (the
      description, emoji, timeframe and colour are only displayed). */
  datatype PipelineStep = PipelineStep(stage: Stage, title: string)

  /** `pipelineSteps`. */
  const PipelineSteps: seq<PipelineStep> := [
    PipelineStep(NewLead, "1. –ù–æ–≤—ã–π –ª–∏–¥"),
    PipelineStep(FirstContact, "2. –ü–µ—Ä–≤—ã–π –∫–æ–Ω—Ç–∞–∫—Ç"),
    PipelineStep(Qualification, "3. –ö–≤–∞–ª–∏—Ñ–∏–∫–∞—Ü–∏—è"),
    PipelineStep(NeedsAnalysis, "4. –í—ã—è–≤–ª–µ–Ω–∏–µ –ø–æ—Ç—Ä–µ–±–Ω–æ—Å—Ç–µ–π"),
    PipelineStep(Presentation, "5. –ü—Ä–µ–∑–µ–Ω—Ç–∞—Ü–∏—è"),
    PipelineStep(Negotiation, "6. –ü–µ—Ä–µ–≥–æ–≤–æ—Ä—ã"),
    PipelineStep(DealClosing, "7. –ó–∞–∫—Ä—ã—Ç–∏–µ —Å–¥–µ–ª–∫–∏"),
    PipelineStep(Won, "‚úÖ –£—Å–ø–µ—Ö"),
    PipelineStep(Lost, "‚ùå –û—Ç–∫–∞–∑")
  ]

  /** The steps are the nine stages, once each, in funnel order. */
  lemma StepsInFunnelOrder()
    ensures |PipelineSteps| == 9
    ensures forall i :: 0 <= i < 9 ==> PipelineSteps[i].stage == Stages[i]
    ensures forall s: Stage :: PipelineSteps[Position(s)].stage == s
  {
  }

  /** `pipelineSteps.findIndex(s => s.stage === v)`. */
  function FindStep(steps: seq<PipelineStep>, v: string): (r: int)
    ensures -1 <= r < |steps|
  {
    if steps == [] then -1
    else if Value(steps[0].stage) == v then 0
    else
      var r := FindStep(steps[1..], v);
      if r == -1 then -1 else r + 1
  }

  /** The step index of the current stage is the funnel index that
      pipeline-helpers.ts computes: -1 for an unknown value. */
  lemma StepIndexIsStageIndex(v: string)
    ensures FindStep(PipelineSteps, v) == StageIndex(v)
  {
    StepsInFunnelOrder();
    StageValuesAligned();
    FindStepIsIndexOf(PipelineSteps, StageValues, v);
  }

  /** `findIndex` on the steps is `indexOf` on the list of their stage values. */
  lemma {:induction false} FindStepIsIndexOf(steps: seq<PipelineStep>, values: seq<string>, v: string)
    requires |steps| == |values|
    requires forall i :: 0 <= i < |steps| ==> Value(steps[i].stage) == values[i]
    ensures FindStep(steps, v) == IndexOf(values, v)
  {
    if steps != [] {
      FindStepIsIndexOf(steps[1..], values[1..], v);
    }
  }

  /** The step index of a stage's value is its funnel position. */
  lemma StepIndexOfStage(s: Stage)
    ensures FindStep(PipelineSteps, Value(s)) == Position(s)
  {
    StepIndexIsStageIndex(Value(s));
    StageIndexOfStage(Position(s));
  }

  /** `pipelineSteps.findIndex(s => s.stage === stage)` for an argument typed
      as a stage. */
  function FindStage(steps: seq<PipelineStep>, stage: Stage): (r: int)
    ensures -1 <= r < |steps|
  {
    if steps == [] then -1
    else if steps[0].stage == stage then 0
    else
      var r := FindStage(steps[1..], stage);
      if r == -1 then -1 else r + 1
  }

  /** The step index of a stage is its funnel position. */
  lemma StagePositionInSteps(s: Stage)
    ensures FindStage(PipelineSteps, s) == Position(s)
  {
    StepsInFunnelOrder();
    FindStageIsIndexOf(PipelineSteps, Stages, s);
    var r := IndexOf(Stages, s);
    assert Stages[Position(s)] == s;
    assert r <= Position(s);
    PositionOfIndex(r);
  }

  /** `findIndex` by stage on the steps is `indexOf` on their stages. */
  lemma {:induction false} FindStageIsIndexOf(steps: seq<PipelineStep>, stages: seq<Stage>, s: Stage)
    requires |steps| == |stages|
    requires forall i :: 0 <= i < |steps| ==> steps[i].stage == stages[i]
    ensures FindStage(steps, s) == IndexOf(stages, s)
  {
    if steps != [] {
      FindStageIsIndexOf(steps[1..], stages[1..], s);
    }
  }

  /** `isActiveStage`. */
  predicate IsActiveStage(current: string, stage: Stage)
  {
    FindStage(PipelineSteps, stage) <= FindStep(PipelineSteps, current)
  }

  /** `isCompletedStage`. */
  predicate IsCompletedStage(current: string, stage: Stage)
  {
    FindStage(PipelineSteps, stage) < FindStep(PipelineSteps, current)
  }

  /** `isCurrentStage`. */
  predicate IsCurrentStage(current: string, stage: Stage)
  {
    current == Value(stage)
  }

  /** A step is active iff it is not after the current stage, and completed
      iff it lies strictly before it; so completed implies active. */
  lemma StageFlagsByPosition(current: string, stage: Stage)
    ensures IsActiveStage(current, stage) <==> Position(stage) <= StageIndex(current)
    ensures IsCompletedStage(current, stage) <==> Position(stage) < StageIndex(current)
  {
    StagePositionInSteps(stage);
    StepIndexIsStageIndex(current);
  }

  /** With a current value that is not a stage, no step is active. */
  lemma UnknownStageNothingActive(current: string, stage: Stage)
    requires ParseStage(current).None?
    ensures !IsActiveStage(current, stage)
  {
    StageFlagsByPosition(current, stage);
    StageIndexParse(current);
  }

  /** At lost, the won step counts as completed, since it comes earlier in
      the list. */
  lemma LostCompletesWon()
    ensures IsCompletedStage(Value(Lost), Won)
  {
    StagePositionInSteps(Won);
    StepIndexOfStage(Lost);
  }

  /** The current stage is active but not completed, and it is the only step
      that is current. */
  lemma CurrentStepUnique(current: string, stage: Stage)
    requires IsCurrentStage(current, stage)
    ensures IsActiveStage(current, stage) && !IsCompletedStage(current, stage)
    ensures forall i :: 0 <= i < |PipelineSteps| ==> (IsCurrentStage(current, PipelineSteps[i].stage) <==> i == Position(stage))
  {
    StepIndexOfStage(stage);
    StagePositionInSteps(stage);
    StepsInFunnelOrder();
    forall i | 0 <= i < |PipelineSteps|
      ensures IsCurrentStage(current, PipelineSteps[i].stage) <==> i == Position(stage)
    {
      ValueInjective(PipelineSteps[i].stage, stage);
      PositionOfIndex(i);
    }
  }

  /** `Math.round(n / d)` for exact rationals: the nearest integer, halves
      rounded up (towards +infinity, also for negative values). */
  function RoundDiv(n: int, d: int): (r: int)
    requires d > 0
    ensures 2 * d * r <= 2 * n + d < 2 * d * (r + 1)
  {
    (2 * n + d) / (2 * d)
  }

  /** `getProgressPercentage`: 100 when won, 0 when lost, otherwise the step
      index over the seven open steps, as a rounded percentage. */
  function ProgressPercentage(current: string): int
  {
    var currentIndex := FindStep(PipelineSteps, current);
    var totalSteps := |PipelineSteps| - 2;
    if current == Value(Won) then 100
    else if current == Value(Lost) then 0
    else RoundDiv(currentIndex * 100, totalSteps)
  }

  /** Progress of a known stage: 100 when won, 0 when lost, otherwise the
      rounded percentage of its position among the seven open steps. */
  lemma ProgressOfStage(s: Stage)
    ensures ProgressPercentage(Value(s)) ==
      if s == Won then 100 else if s == Lost then 0 else RoundDiv(Position(s) * 100, 7)
  {
    StepIndexOfStage(s);
    StepsInFunnelOrder();
    ValueInjective(s, Won);
    ValueInjective(s, Lost);
  }

  /** Progress of a value that is not a stage: index -1 gives -14. */
  lemma ProgressOfUnknown(current: string)
    requires ParseStage(current).None?
    ensures ProgressPercentage(current) == -14
  {
    StepIndexIsStageIndex(current);
    StageIndexParse(current);
    StepsCount();
    assert current != Value(Won) && current != Value(Lost);
    assert FindStep(PipelineSteps, current) * 100 == -100;
    UnknownRounds();
  }

  lemma UnknownRounds()
    ensures RoundDiv(-100, 7) == -14
  {
    assert 2 * -100 + 7 == -193 == 14 * -14 + 3;
  }

  lemma StepsCount()
    ensures |PipelineSteps| == 9
  {
  }

  /** Progress is 0 at new_lead, 86 at deal_closing, and within 0..100 for
      every stage. */
  lemma ProgressBounds(s: Stage)
    ensures s == NewLead ==> ProgressPercentage(Value(s)) == 0
    ensures s == DealClosing ==> ProgressPercentage(Value(s)) == 86
    ensures 0 <= ProgressPercentage(Value(s)) <= 100
  {
    ProgressOfStage(s);
    if s != Won && s != Lost {
      PercentInRange(Position(s));
    }
  }

  lemma PercentInRange(i: int)
    requires 0 <= i <= 6
    ensures 0 <= RoundDiv(i * 100, 7) <= 100
    ensures i == 0 ==> RoundDiv(i * 100, 7) == 0
    ensures i == 6 ==> RoundDiv(i * 100, 7) == 86
  {
  }

  /** Over the open stages, progress strictly increases in funnel order. */
  lemma ProgressIncreasing(a: Stage, b: Stage)
    requires a != Won && a != Lost && b != Won && b != Lost
    requires Position(a) < Position(b)
    ensures ProgressPercentage(Value(a)) < ProgressPercentage(Value(b))
  {
    ProgressOfStage(a);
    ProgressOfStage(b);
    RoundDivMonotone(Position(a) * 100, Position(b) * 100);
  }

  lemma RoundDivMonotone(n: int, m: int)
    requires n + 7 <= m
    ensures RoundDiv(n, 7) < RoundDiv(m, 7)
  {
  }

  const UnknownStageTitle: string := "–ù–µ–∏–∑–≤–µ—Å—Ç–Ω—ã–π —ç—Ç–∞–ø"

  /** `getCurrentStageTitle`: the title of the step for the current stage, or
      the fallback text for an unknown one. */
  function CurrentStageTitle(current: string): (r: string)
    ensures ParseStage(current).Some? ==> r == PipelineSteps[Position(ParseStage(current).value)].title
    ensures ParseStage(current).None? ==> r == UnknownStageTitle
  {
    var i := FindStep(PipelineSteps, current);
    StepIndexIsStageIndex(current);
    StageIndexParse(current);
    if i >= 0 then PipelineSteps[i].title else UnknownStageTitle
  }

  const DefaultNextAction: string := "–ü—Ä–æ–¥–æ–ª–∂–∏—Ç—å —Ä–∞–±–æ—Ç—É —Å –ª–∏–¥–æ–º"

  /** The advice `getNextAction` gives at a stage. */
  function StageAction(s: Stage): string
  {
    match s
    case NewLead => "–ü–æ–∑–≤–æ–Ω–∏—Ç—å –∫–ª–∏–µ–Ω—Ç—É –≤ —Ç–µ—á–µ–Ω–∏–µ 2 —á–∞—Å–æ–≤"
    case FirstContact => "–°–æ–±—Ä–∞—Ç—å –∫–æ–Ω—Ç–∞–∫—Ç–Ω—ã–µ –¥–∞–Ω–Ω—ã–µ –∏ –∫–≤–∞–ª–∏—Ñ–∏—Ü–∏—Ä–æ–≤–∞—Ç—å –ª–∏–¥"
    case Qualification => "–£–∑–Ω–∞—Ç—å –ø—Ä–µ–¥–ø–æ—á—Ç–µ–Ω–∏—è –ø–æ –∞–≤—Ç–æ–º–æ–±–∏–ª—è–º, –±—é–¥–∂–µ—Ç, —Ä–µ–≥–∏–æ–Ω"
    case NeedsAnalysis => "–ü–æ–¥–æ–±—Ä–∞—Ç—å 3-5 –≤–∞—Ä–∏–∞–Ω—Ç–æ–≤ –∏ –æ—Ç–ø—Ä–∞–≤–∏—Ç—å –ø–æ–¥–±–æ—Ä–∫—É"
    case Presentation => "–î–æ–∂–¥–∞—Ç—å—Å—è –æ–±—Ä–∞—Ç–Ω–æ–π —Å–≤—è–∑–∏, –æ—Ç–≤–µ—Ç–∏—Ç—å –Ω–∞ –≤–æ–ø—Ä–æ—Å—ã"
    case Negotiation => "–û–±—Ä–∞–±–æ—Ç–∞—Ç—å –≤–æ–∑—Ä–∞–∂–µ–Ω–∏—è, –Ω–∞–∑–Ω–∞—á–∏—Ç—å –≤—Å—Ç—Ä–µ—á—É"
    case DealClosing => "–û—Ç–ø—Ä–∞–≤–∏—Ç—å –¥–æ–≥–æ–≤–æ—Ä, –ø–æ–ª—É—á–∏—Ç—å –ø—Ä–µ–¥–æ–ø–ª–∞—Ç—É"
    case Won => "–ü–æ–∑–¥—Ä–∞–≤–ª—è–µ–º! –°–¥–µ–ª–∫–∞ –∑–∞–∫—Ä—ã—Ç–∞ —É—Å–ø–µ—à–Ω–æ üéâ"
    case Lost => "–ü—Ä–æ–∞–Ω–∞–ª–∏–∑–∏—Ä–æ–≤–∞—Ç—å –ø—Ä–∏—á–∏–Ω—É –æ—Ç–∫–∞–∑–∞"
  }

  /** `getNextAction`: a fixed advice text per stage, and the default text
      for any value that is not a stage. */
  function NextAction(current: string): (r: string)
    ensures ParseStage(current).None? ==> r == DefaultNextAction
  {
    match ParseStage(current)
    case Some(s) => StageAction(s)
    case None => DefaultNextAction
  }

  /** Each stage's value yields that stage's advice. */
  lemma NextActionOfStage(s: Stage)
    ensures NextAction(Value(s)) == StageAction(s)
  {
    ParseValue(s);
  }
}

/** The sales funnel shared by the lead screens: nine ordered stages, the
    table that assigns task types to stages, and the task filters built on
    it (src/app/utils/pipeline-helpers.ts). */
module Pipeline {
  import opened Js
  import opened Grouping

  /** The funnel stages, in funnel order. */
  datatype Stage =
    | NewLead
    | FirstContact
    | Qualification
    | NeedsAnalysis
    | Presentation
    | Negotiation
    | DealClosing
    | Won
    | Lost

  /** The funnel list written out in `getNextStage` and `getStageIndex`. */
  const Stages: seq<Stage> :=
    [NewLead, FirstContact, Qualification, NeedsAnalysis, Presentation, Negotiation, DealClosing, Won, Lost]

  /** Position of a stage in the funnel list. */
  function Position(s: Stage): (r: nat)
    ensures r < 9 && Stages[r] == s
  {
    match s
    case NewLead => 0
    case FirstContact => 1
    case Qualification => 2
    case NeedsAnalysis => 3
    case Presentation => 4
    case Negotiation => 5
    case DealClosing => 6
    case Won => 7
    case Lost => 8
  }

  /** The enum's string values, in funnel order. */
  const StageValues: seq<string> :=
    ["new_lead", "first_contact", "qualification", "needs_analysis", "presentation",
     "negotiation", "deal_closing", "won", "lost"]

  /** The enum's string value, as stored on a lead. */
  function Value(s: Stage): string
  {
    StageValues[Position(s)]
  }

  /** The string list and the stage list line up, and neither repeats itself. */
  lemma StageValuesAligned()
    ensures |StageValues| == |Stages| == 9
    ensures forall i :: 0 <= i < 9 ==> StageValues[i] == Value(Stages[i])
    ensures forall a, b :: 0 <= a < b < 9 ==> StageValues[a] != StageValues[b]
    ensures forall a, b :: 0 <= a < b < 9 ==> Stages[a] != Stages[b]
  {
    StageValuesDistinct();
    forall i | 0 <= i < 9 ensures Position(Stages[i]) == i {
    }
  }

  /** Different stages have different values. */
  lemma ValueInjective(a: Stage, b: Stage)
    ensures Value(a) == Value(b) <==> a == b
  {
    StageValuesDistinct();
  }

  lemma StageValuesDistinct()
    ensures forall a, b :: 0 <= a < b < |StageValues| ==> StageValues[a] != StageValues[b]
  {
  }

  // ---------------------------------------------------------------------
  // TASK_TYPE_TO_STAGE_MAP

  const TaskTypeToStage: map<string, Stage> := map[
    "contact" := NewLead,
    "first_contact" := FirstContact,
    "qualification" := Qualification,
    "collect_contacts" := Qualification,
    "car_preferences" := NeedsAnalysis,
    "budget" := NeedsAnalysis,
    "region" := NeedsAnalysis,
    "timeline" := NeedsAnalysis,
    "register_lead" := NeedsAnalysis,
    "send_offers" := Presentation,
    "send_calculation" := Presentation,
    "send_photos" := Presentation,
    "follow_up" := Negotiation,
    "objection_handling" := Negotiation,
    "additional_info" := Negotiation,
    "schedule_meeting" := DealClosing,
    "send_contract" := DealClosing,
    "get_prepayment" := DealClosing,
    "confirm_deal" := DealClosing
  ]

  /** `TASK_TYPE_TO_STAGE_MAP[taskType]`: the stage a task type belongs to.
      No task type leads to a closed stage. */
  function StageOf(taskType: string): (r: Option<Stage>)
    ensures r.Some? ==> r.value != Won && r.value != Lost
    ensures r.Some? <==> taskType in TaskTypeToStage
  {
    if taskType in TaskTypeToStage then Some(TaskTypeToStage[taskType]) else None
  }

  /** The table covers each of the seven open stages. */
  lemma TaskTypeTableCoversOpenStages()
    ensures forall s: Stage :: s != Won && s != Lost ==> s in TaskTypeToStage.Values
  {
    assert TaskTypeToStage["contact"] == NewLead;
    assert TaskTypeToStage["first_contact"] == FirstContact;
    assert TaskTypeToStage["qualification"] == Qualification;
    assert TaskTypeToStage["budget"] == NeedsAnalysis;
    assert TaskTypeToStage["send_offers"] == Presentation;
    assert TaskTypeToStage["follow_up"] == Negotiation;
    assert TaskTypeToStage["confirm_deal"] == DealClosing;
  }

  // ---------------------------------------------------------------------
  // getStageIndex, getNextStage, getStageName

  /** `getStageIndex`: position in funnel order, -1 for a value not in the list. */
  function StageIndex(v: string): (r: int)
    ensures -1 <= r < 9
    ensures r == -1 <==> v !in StageValues
    ensures r >= 0 ==> StageValues[r] == v
  {
    IndexOf(StageValues, v)
  }

  /** Reads a stored string as a stage; anything else is not a stage. */
  function ParseStage(v: string): (r: Option<Stage>)
    ensures r.Some? ==> Value(r.value) == v
    ensures r.None? ==> forall s: Stage :: Value(s) != v
  {
    StageValuesAligned();
    var i := StageIndex(v);
    if i >= 0 then Some(Stages[i])
    else
      assert forall s: Stage :: Value(s) == StageValues[Position(s)];
      None
  }

  /** The index is -1 exactly for strings that are not stages, and otherwise
      the stage's place in the funnel. */
  lemma StageIndexParse(v: string)
    ensures StageIndex(v) == -1 <==> ParseStage(v).None?
    ensures ParseStage(v).Some? ==> StageIndex(v) == Position(ParseStage(v).value)
  {
    StageValuesAligned();
  }

  /** The index of a stage is its position in the funnel list. */
  lemma StageIndexOfStage(i: int)
    requires 0 <= i < 9
    ensures StageIndex(Value(Stages[i])) == i
  {
    StageValuesAligned();
    IndexOfDistinct(StageValues, i);
  }

  /** Parsing a stage's own value gives the stage back. */
  lemma ParseValue(s: Stage)
    ensures ParseStage(Value(s)) == Some(s)
  {
    StageIndexOfStage(Position(s));
  }

  /** `getNextStage`: the following stage, or null from deal_closing on and
      for unknown values. */
  function NextStage(v: string): (r: Option<Stage>)
  {
    var i := StageIndex(v);
    if i == -1 || i >= |Stages| - 3 then None else Some(Stages[i + 1])
  }

  /** `getNextStage` advances exactly the six stages before deal_closing, so a
      deal never advances to won by itself. */
  lemma NextStageSpec(v: string)
    ensures NextStage(v).Some? <==> 0 <= StageIndex(v) <= 5
    ensures NextStage(v) != Some(Won) && NextStage(v) != Some(Lost)
    ensures ParseStage(v) == Some(DealClosing) ==> NextStage(v).None?
  {
    StageIndexParse(v);
    var i := StageIndex(v);
    if 0 <= i <= 5 {
      PositionOfIndex(i + 1);
    }
  }

  /** The next stage is the one right after the current one in the funnel. */
  lemma NextStageAdvances(v: string)
    requires NextStage(v).Some?
    ensures Position(NextStage(v).value) == StageIndex(v) + 1
  {
    PositionOfIndex(StageIndex(v) + 1);
  }

  lemma PositionOfIndex(j: int)
    requires 0 <= j < 9
    ensures Position(Stages[j]) == j
  {
  }

  /** `getStageName`: the Russian name of a stage, the value itself otherwise. */
  function StageName(v: string): (r: string)
    ensures ParseStage(v).None? ==> r == v
    ensures ParseStage(v).Some? ==> r != "" && r != v
  {
    match ParseStage(v)
    case None => v
    case Some(NewLead) => "Новый лид"
    case Some(FirstContact) => "Первый контакт"
    case Some(Qualification) => "Квалификация"
    case Some(NeedsAnalysis) => "Выявление потребностей"
    case Some(Presentation) => "Презентация"
    case Some(Negotiation) => "Переговоры"
    case Some(DealClosing) => "Закрытие сделки"
    case Some(Won) => "Успех"
    case Some(Lost) => "Отказ"
  }

  // ---------------------------------------------------------------------
  // Task filters

  /** A lead task as the filters see it. */
  datatype LeadTask = LeadTask(id: int, title: string, taskType: string, completed: bool, dueDate: Option<int>)

  /** The per-task test of `filterTasksByPipelineStage`. */
  predicate ShownAtStage(t: LeadTask, current: string)
  {
    match StageOf(t.taskType)
    case None => true
    case Some(st) => Value(st) == current || NextStage(current) == Some(st)
  }

  /** `filterTasksByPipelineStage`: tasks of the current and the next stage,
      and every task of an unmapped type. */
  function FilterTasksByPipelineStage(tasks: seq<LeadTask>, current: string): (r: seq<LeadTask>)
    ensures IsSubsequence(r, tasks)
    ensures forall i :: 0 <= i < |tasks| && StageOf(tasks[i].taskType).None? ==> tasks[i] in r
    ensures forall i :: 0 <= i < |tasks| && StageOf(tasks[i].taskType).Some? ==>
              (tasks[i] in r <==> Value(StageOf(tasks[i].taskType).value) == current
                                  || NextStage(current) == StageOf(tasks[i].taskType))
  {
    var r := Filter(t => ShownAtStage(t, current), tasks);
    FilterIsSubsequence(t => ShownAtStage(t, current), tasks);
    r
  }

  /** The filter's test on a mapped stage, in funnel positions: the stage is
      shown iff it is the current one or the one right after it, and nothing
      comes after deal_closing. */
  lemma ShownStageByPosition(st: Stage, current: string)
    ensures (Value(st) == current || NextStage(current) == Some(st)) <==>
      (var i := StageIndex(current);
       i >= 0 && (Position(st) == i || (Position(st) == i + 1 && i <= 5)))
  {
    var i := StageIndex(current);
    StageValuesAligned();
    StageIndexOfStage(Position(st));
    NextStageSpec(current);
  }

  /** The per-task test of `getTasksForCurrentStage`. */
  predicate OfStage(t: LeadTask, current: string)
  {
    match StageOf(t.taskType)
    case None => false
    case Some(st) => Value(st) == current
  }

  /** `getTasksForCurrentStage`: the tasks whose mapped stage is the current one. */
  function TasksForCurrentStage(tasks: seq<LeadTask>, current: string): (r: seq<LeadTask>)
    ensures forall i :: 0 <= i < |r| ==> StageOf(r[i].taskType).Some? && Value(StageOf(r[i].taskType).value) == current
    ensures forall i :: 0 <= i < |tasks| && OfStage(tasks[i], current) ==> tasks[i] in r
    ensures IsSubsequence(r, tasks)
  {
    FilterIsSubsequence(t => OfStage(t, current), tasks);
    Filter(t => OfStage(t, current), tasks)
  }

  /** No task belongs to a closed stage, so a won or lost lead has none. */
  lemma {:induction false} TasksForClosedStageEmpty(tasks: seq<LeadTask>, current: string)
    requires current == "won" || current == "lost"
    ensures TasksForCurrentStage(tasks, current) == []
  {
    if tasks != [] {
      TasksForClosedStageEmpty(tasks[1..], current);
      assert !OfStage(tasks[0], current);
    }
  }

  /** The current stage's tasks are the current stage's part of the shown
      tasks, so they form a subsequence of them. */
  lemma CurrentStageTasksWithinShown(tasks: seq<LeadTask>, current: string)
    ensures TasksForCurrentStage(tasks, current) == Filter(t => OfStage(t, current), FilterTasksByPipelineStage(tasks, current))
    ensures IsSubsequence(TasksForCurrentStage(tasks, current), FilterTasksByPipelineStage(tasks, current))
  {
    var p := t => OfStage(t, current);
    var q := t => ShownAtStage(t, current);
    FilterOfFilter(p, q, tasks);
    FilterIsSubsequence(p, FilterTasksByPipelineStage(tasks, current));
  }

  // ---------------------------------------------------------------------
  // groupTasksByStage

  /** The group a task is filed under: its stage's value, or 'other'. */
  function GroupKey(t: LeadTask): (r: string)
    ensures r in GroupKeys
  {
    match StageOf(t.taskType)
    case Some(st) => Value(st)
    case None => "other"
  }

  /** The possible group keys: the seven open stages and 'other', once each. */
  const GroupKeys: seq<string> :=
    ["new_lead", "first_contact", "qualification", "needs_analysis", "presentation",
     "negotiation", "deal_closing", "other"]

  lemma GroupKeysDistinct()
    ensures forall a, b :: 0 <= a < b < |GroupKeys| ==> GroupKeys[a] != GroupKeys[b]
  {
  }

  /** `groupTasksByStage`: files every task under its stage (or 'other'),
      pushing onto the group's list. */
  method GroupTasksByStage(tasks: seq<LeadTask>) returns (grouped: map<string, seq<LeadTask>>)
    ensures grouped == GroupMap(GroupKey, tasks)
  {
    grouped := map[];
    var i := 0;
    while i < |tasks|
      invariant 0 <= i <= |tasks|
      invariant grouped == GroupMap(GroupKey, tasks[..i])
    {
      var task := tasks[i];
      var stage := GroupKey(task);
      var bucket := if stage in grouped then grouped[stage] else [];
      grouped := grouped[stage := bucket + [task]];
      GroupMapStep(GroupKey, tasks, i);
      i := i + 1;
    }
    assert tasks[..i] == tasks;
  }

  /** The group sizes add up to the number of tasks, so no task is in two groups. */
  lemma StageGroupsSizes(tasks: seq<LeadTask>)
    ensures TotalSize(GroupMap(GroupKey, tasks), GroupKeys) == |tasks|
  {
    GroupKeysDistinct();
    GroupSizesSum(GroupKey, tasks, GroupKeys);
  }
}

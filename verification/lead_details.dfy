/** The lead details modal: the lookups and helpers its template calls,
    the tag toggle, and the tasks shown for the lead's funnel stage. */
module LeadDetails {
  import opened Js
  import opened Pipeline

  datatype Tag = Tag(id: int, name: string, color: string)

  /** The fields of a lead the modal's helpers read.  `pipelineStage` may be
      missing; `tags` may be missing too. */
  datatype Lead = Lead(id: int, pipelineStage: Option<string>, tags: Option<seq<Tag>>)

  /** An activity entry; the admin behind it may be missing, and so may
      their email. */
  datatype Activity = Activity(activityType: string, description: Option<string>, adminEmail: Option<Option<string>>)

  /** The request `toggleTag` sends. */
  datatype TagRequest = NoRequest | RemoveTag(leadId: int, tagId: int) | AddTag(leadId: int, tagId: int)

  // ---------------------------------------------------------------------
  // Lookups

  const SourceLabels: map<string, string> :=
    map["chat" := "Чат", "telegram" := "Telegram", "phone" := "Телефон", "email" := "Email", "other" := "Другое"]

  const MeetingTypeLabels: map<string, string> :=
    map["call" := "Звонок", "email" := "Email", "meeting" := "Встреча", "visit" := "Визит", "other" := "Другое"]

  const ActivityIcons: map<string, string> :=
    map["created" := "fa-plus-circle", "updated" := "fa-edit", "commented" := "fa-comment",
        "assigned" := "fa-user-plus", "converted" := "fa-check-circle", "task_created" := "fa-tasks",
        "task_completed" := "fa-check", "meeting_created" := "fa-calendar", "attachment_added" := "fa-paperclip"]

  /** `table[key] || fallback`. */
  function LookupOr(table: map<string, string>, key: string, fallback: string): string
  {
    if key in table && table[key] != "" then table[key] else fallback
  }

  /** `getSourceLabel`: the label of a known source; any other value is
      shown as it is. */
  function SourceLabel(source: string): (r: string)
    ensures source in SourceLabels ==> r == SourceLabels[source]
    ensures source !in SourceLabels ==> r == source
  {
    LookupOr(SourceLabels, source, source)
  }

  /** `getMeetingTypeLabel`: the label of a known type; any other value is
      shown as it is. */
  function MeetingTypeLabel(meetingType: string): (r: string)
    ensures meetingType in MeetingTypeLabels ==> r == MeetingTypeLabels[meetingType]
    ensures meetingType !in MeetingTypeLabels ==> r == meetingType
  {
    LookupOr(MeetingTypeLabels, meetingType, meetingType)
  }

  /** `getActivityIcon`: the icon of a known type, `fa-info-circle` for any
      other. */
  function ActivityIcon(activityType: string): (r: string)
    ensures activityType in ActivityIcons ==> r == ActivityIcons[activityType]
    ensures activityType !in ActivityIcons ==> r == "fa-info-circle"
  {
    LookupOr(ActivityIcons, activityType, "fa-info-circle")
  }

  /** `getScoreClass`: high from 80, medium from 50, low below. */
  function ScoreClass(score: int): (r: string)
    ensures r == "score-high" <==> score >= 80
    ensures r == "score-medium" <==> 50 <= score < 80
    ensures r == "score-low" <==> score < 50
  {
    if score >= 80 then "score-high"
    else if score >= 50 then "score-medium"
    else "score-low"
  }

  /** `x || ''` on an optional string. */
  function OrEmpty(x: Option<string>): string
  {
    if x.Some? then x.value else ""
  }

  /** `getActivityDescription`: empty while no lead is loaded; fixed texts
      for the four known types; otherwise the entry's own description, or
      a default when it has none. */
  function ActivityDescription(leadLoaded: bool, a: Activity): (r: string)
    ensures r == "" <==> !leadLoaded
    ensures leadLoaded && a.activityType == "created" ==> r == "Лид создан"
    ensures leadLoaded && a.activityType == "updated" ==> r == "Лид обновлен"
    ensures leadLoaded && a.activityType == "converted" ==> r == "Лид конвертирован в клиента"
    ensures leadLoaded && a.activityType == "assigned" ==>
              r == "Лид назначен администратору " + (if a.adminEmail.Some? then OrEmpty(a.adminEmail.value) else "")
    ensures leadLoaded && a.activityType !in {"created", "updated", "assigned", "converted"} ==>
              r == (if a.description.Some? && a.description.value != "" then a.description.value else "Действие выполнено")
  {
    if !leadLoaded then ""
    else if a.activityType == "created" then "Лид создан"
    else if a.activityType == "updated" then "Лид обновлен"
    else if a.activityType == "assigned" then
      "Лид назначен администратору " + (if a.adminEmail.Some? then OrEmpty(a.adminEmail.value) else "")
    else if a.activityType == "converted" then "Лид конвертирован в клиента"
    else if a.description.Some? && a.description.value != "" then a.description.value
    else "Действие выполнено"
  }

  // ---------------------------------------------------------------------
  // Tags

  /** `tags.some(t => t.id === tagId)`. */
  function SomeWithId(tags: seq<Tag>, tagId: int): (r: bool)
    ensures r <==> exists i :: 0 <= i < |tags| && tags[i].id == tagId
  {
    if tags == [] then false
    else if tags[0].id == tagId then true
    else
      var rest := SomeWithId(tags[1..], tagId);
      assert rest <==> exists i :: 1 <= i < |tags| && tags[i].id == tagId by {
        if rest {
          var i :| 0 <= i < |tags[1..]| && tags[1..][i].id == tagId;
          assert tags[i + 1].id == tagId;
        }
        if exists i :: 1 <= i < |tags| && tags[i].id == tagId {
          var i :| 1 <= i < |tags| && tags[i].id == tagId;
          assert tags[1..][i - 1].id == tagId;
        }
      }
      rest
  }

  /** `lead?.tags?.some(t => t.id === tagId) || false`: the loaded lead
      carries a tag with that id. */
  function IsTagAssigned(leadData: Option<Lead>, tagId: int): (r: bool)
    ensures r <==> leadData.Some? && leadData.value.tags.Some?
                   && exists i :: 0 <= i < |leadData.value.tags.value| && leadData.value.tags.value[i].id == tagId
  {
    leadData.Some? && leadData.value.tags.Some? && SomeWithId(leadData.value.tags.value, tagId)
  }

  // ---------------------------------------------------------------------
  // Stage

  /** `leadData()?.pipelineStage || 'new_lead'`. */
  function CurrentPipelineStage(leadData: Option<Lead>): (r: string)
    ensures leadData.Some? && leadData.value.pipelineStage.Some? && leadData.value.pipelineStage.value != "" ==>
              r == leadData.value.pipelineStage.value
    ensures leadData.None? || leadData.value.pipelineStage.None? || leadData.value.pipelineStage == Some("") ==>
              r == Value(NewLead)
  {
    if leadData.Some? && leadData.value.pipelineStage.Some? && leadData.value.pipelineStage.value != "" then
      leadData.value.pipelineStage.value
    else "new_lead"
  }

  predicate Done(t: LeadTask)
  {
    t.completed
  }

  class LeadDetailsModal {
    /** The lead the list passed in. */
    var lead: Lead
    var leadData: Option<Lead>
    var leadTasks: seq<LeadTask>
    var isLoading: bool

    constructor (lead: Lead)
      ensures this.lead == lead && leadData == None && leadTasks == [] && isLoading
    {
      this.lead := lead;
      leadData := None;
      leadTasks := [];
      isLoading := true;
    }

    /** The full lead arrived. */
    method OnFullLead(full: Lead)
      modifies this
      ensures leadData == Some(full) && !isLoading
      ensures lead == old(lead) && leadTasks == old(leadTasks)
    {
      leadData := Some(full);
      isLoading := false;
    }

    /** Loading the full lead failed: the lead passed in is shown. */
    method OnFullLeadError()
      modifies this
      ensures leadData == Some(lead) && !isLoading
      ensures lead == old(lead) && leadTasks == old(leadTasks)
    {
      leadData := Some(lead);
      isLoading := false;
    }

    method OnTasks(tasks: seq<LeadTask>)
      modifies this
      ensures leadTasks == tasks
      ensures lead == old(lead) && leadData == old(leadData) && isLoading == old(isLoading)
    {
      leadTasks := tasks;
    }

    /** `getCompletedTasksCount`: never more than the total. */
    function CompletedTasksCount(): (r: nat)
      reads this
      ensures r <= TotalTasksCount()
      ensures r == TotalTasksCount() <==> forall i :: 0 <= i < |leadTasks| ==> leadTasks[i].completed
    {
      AllCompleted(leadTasks);
      |Filter(Done, leadTasks)|
    }

    function TotalTasksCount(): nat
      reads this
    {
      |leadTasks|
    }

    /** `getCurrentStageTasks`: the tasks whose type belongs to the stage
        the lead is at, or to the first stage when it has none; a won or
        lost lead has none. */
    function CurrentStageTasks(): (r: seq<LeadTask>)
      reads this
      ensures r == TasksForCurrentStage(leadTasks, CurrentPipelineStage(leadData))
      ensures CurrentPipelineStage(leadData) in {"won", "lost"} ==> r == []
    {
      var current := CurrentPipelineStage(leadData);
      if current == "won" || current == "lost" then
        TasksForClosedStageEmpty(leadTasks, current);
        TasksForCurrentStage(leadTasks, current)
      else TasksForCurrentStage(leadTasks, current)
    }

    /** `toggleTag`: nothing without a loaded lead; a tag the lead carries
        is removed, any other is added. */
    method ToggleTag(tagId: int) returns (request: TagRequest)
      ensures leadData.None? ==> request == NoRequest
      ensures leadData.Some? && IsTagAssigned(leadData, tagId) ==> request == RemoveTag(leadData.value.id, tagId)
      ensures leadData.Some? && !IsTagAssigned(leadData, tagId) ==> request == AddTag(leadData.value.id, tagId)
    {
      if leadData.None? {
        return NoRequest;
      }
      var isAssigned := IsTagAssigned(leadData, tagId);
      if isAssigned {
        request := RemoveTag(leadData.value.id, tagId);
      } else {
        request := AddTag(leadData.value.id, tagId);
      }
    }
  }

  /** Every task is completed exactly when the completed ones are all of
      them. */
  lemma {:induction false} AllCompleted(tasks: seq<LeadTask>)
    ensures |Filter(Done, tasks)| == |tasks| <==> forall i :: 0 <= i < |tasks| ==> tasks[i].completed
    decreases |tasks|
  {
    if tasks != [] {
      AllCompleted(tasks[1..]);
      assert tasks == [tasks[0]] + tasks[1..];
      if forall i :: 0 <= i < |tasks[1..]| ==> tasks[1..][i].completed {
        assert forall i :: 1 <= i < |tasks| ==> tasks[i].completed by {
          forall i | 1 <= i < |tasks| ensures tasks[i].completed {
            assert tasks[1..][i - 1] == tasks[i];
          }
        }
      }
    }
  }
}

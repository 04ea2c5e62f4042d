/** The admin's task list (tasks.page.ts): tasks are grouped by lead, each
    lead's list is sorted open-first and by due date, trimmed to a short
    preview, and the leads with open work are expanded. */
module TasksPage {
  import opened Js
  import opened Grouping
  import opened StableSort

  /** The fields of a task that the page reads.  `dueDate` is the due time
      as a timestamp; `None` stands for a missing or empty due date. */
  datatype Task = Task(id: int, leadId: int, title: string, status: string, completed: bool, dueDate: Option<int>)

  function LeadOf(t: Task): int
  {
    t.leadId
  }

  predicate IsOpen(t: Task)
  {
    !t.completed
  }

  predicate IsDone(t: Task)
  {
    t.completed
  }

  /** `list.some(t => !t.completed)`. */
  predicate HasOpen(s: seq<Task>)
  {
    exists i :: 0 <= i < |s| && !s[i].completed
  }

  // ---------------------------------------------------------------------
  // The sort order

  /** The comparator handed to `sort`: open tasks first; between two dated
      tasks the earlier due time first; a dated task before an undated one;
      otherwise a tie. */
  function Compare(a: Task, b: Task): int
  {
    if a.completed != b.completed then (if a.completed then 1 else -1)
    else if a.dueDate.Some? && b.dueDate.Some? then a.dueDate.value - b.dueDate.value
    else if a.dueDate.Some? then -1
    else if b.dueDate.Some? then 1
    else 0
  }

  /** The comparator's order as a key: completion, then "has no due date",
      then the due time. */
  function SortKey(t: Task): seq<int>
  {
    [if t.completed then 1 else 0, if t.dueDate.Some? then 0 else 1, if t.dueDate.Some? then t.dueDate.value else 0]
  }

  /** The key order is exactly the comparator's: a negative comparison is a
      strictly smaller key and a tie is an equal key, so the stable sort by
      the key is the sort the page performs. */
  lemma CompareIsKeyOrder(a: Task, b: Task)
    ensures Compare(a, b) < 0 <==> KeyLt(SortKey(a), SortKey(b))
    ensures Compare(a, b) == 0 <==> SortKey(a) == SortKey(b)
  {
    var ka, kb := SortKey(a), SortKey(b);
    KeyLeTriple(ka[0], ka[1], ka[2], kb[0], kb[1], kb[2]);
    KeyLeTriple(kb[0], kb[1], kb[2], ka[0], ka[1], ka[2]);
    assert ka == [ka[0], ka[1], ka[2]] && kb == [kb[0], kb[1], kb[2]];
  }

  /** In a sorted list no completed task precedes an open one; among tasks
      of equal completion no undated task precedes a dated one, and dated
      ones come by ascending due time. */
  lemma SortedTaskOrder(s: seq<Task>, i: int, j: int)
    requires SortedBy(SortKey, s) && 0 <= i < j < |s|
    ensures s[i].completed ==> s[j].completed
    ensures s[i].completed == s[j].completed && s[i].dueDate.None? ==> s[j].dueDate.None?
    ensures s[i].completed == s[j].completed && s[i].dueDate.Some? && s[j].dueDate.Some? ==> s[i].dueDate.value <= s[j].dueDate.value
  {
    var ka, kb := SortKey(s[i]), SortKey(s[j]);
    assert KeyLe(ka, kb);
    KeyLeTriple(ka[0], ka[1], ka[2], kb[0], kb[1], kb[2]);
    assert ka == [ka[0], ka[1], ka[2]] && kb == [kb[0], kb[1], kb[2]];
  }

  /** In a sorted list that starts with a completed task, every task is
      completed. */
  lemma AllDoneAfterDone(s: seq<Task>)
    requires SortedBy(SortKey, s) && s != [] && !IsOpen(s[0])
    ensures forall i :: 0 <= i < |s| ==> !IsOpen(s[i])
  {
    forall i | 0 < i < |s| ensures !IsOpen(s[i]) {
      SortedTaskOrder(s, 0, i);
    }
  }

  /** A prefix of the tail, behind the head, is a prefix of the whole. */
  lemma ConsPrefix(s: seq<Task>, f: seq<Task>)
    requires s != [] && |f| <= |s| - 1 && f == s[1..][..|f|]
    ensures [s[0]] + f == s[..|f| + 1]
  {
  }

  /** In a sorted list the open tasks form a prefix. */
  lemma {:induction false} OpenPrefix(s: seq<Task>)
    requires SortedBy(SortKey, s)
    ensures Filter(IsOpen, s) == s[..|Filter(IsOpen, s)|]
  {
    if s != [] {
      if IsOpen(s[0]) {
        SortedTail(SortKey, s);
        OpenPrefix(s[1..]);
        ConsPrefix(s, Filter(IsOpen, s[1..]));
      } else {
        AllDoneAfterDone(s);
        FilterNone(IsOpen, s);
      }
    }
  }

  // ---------------------------------------------------------------------
  // Trimming one lead's sorted list

  /** What is shown for one lead: up to three open tasks, or, when every task
      is completed, the last two (`slice(0, 3)` and `slice(-2)`). */
  function Preview(sorted: seq<Task>): seq<Task>
  {
    var open := Filter(IsOpen, sorted);
    var done := Filter(IsDone, sorted);
    if |open| > 0 then open[..Min(3, |open|)] else done[|done| - Min(2, |done|)..]
  }

  /** A non-empty list previews to one to three of its own tasks; with open
      work they are its first open tasks in order, otherwise they are its
      last one or two tasks, all completed. */
  lemma PreviewShape(sorted: seq<Task>)
    requires sorted != []
    ensures 1 <= |Preview(sorted)| <= 3
    ensures forall t :: t in Preview(sorted) ==> t in sorted
    ensures HasOpen(sorted) ==> Preview(sorted) == Filter(IsOpen, sorted)[..Min(3, |Filter(IsOpen, sorted)|)]
    ensures HasOpen(sorted) ==> forall t :: t in Preview(sorted) ==> !t.completed
    ensures !HasOpen(sorted) ==> Preview(sorted) == sorted[|sorted| - Min(2, |sorted|)..]
  {
    if HasOpen(sorted) {
      PreviewWithOpen(sorted);
    } else {
      PreviewWithoutOpen(sorted);
    }
  }

  lemma PreviewWithOpen(sorted: seq<Task>)
    requires HasOpen(sorted)
    ensures var open := Filter(IsOpen, sorted);
            |open| > 0 && Preview(sorted) == open[..Min(3, |open|)]
    ensures 1 <= |Preview(sorted)| <= 3
    ensures forall t :: t in Preview(sorted) ==> t in sorted && !t.completed
  {
    var open := Filter(IsOpen, sorted);
    var i :| 0 <= i < |sorted| && !sorted[i].completed;
    assert sorted[i] in open;
    var p := Preview(sorted);
    forall t | t in p ensures t in sorted && !t.completed {
      var k :| 0 <= k < |p| && p[k] == t;
      assert p[k] == open[k];
    }
  }

  lemma PreviewWithoutOpen(sorted: seq<Task>)
    requires sorted != [] && !HasOpen(sorted)
    ensures Preview(sorted) == sorted[|sorted| - Min(2, |sorted|)..]
    ensures 1 <= |Preview(sorted)| <= 2
    ensures forall t :: t in Preview(sorted) ==> t in sorted
  {
    var open := Filter(IsOpen, sorted);
    FilterAll(IsDone, sorted);
    assert |open| > 0 ==> open[0] in sorted && IsOpen(open[0]);
  }

  /** The preview has open work exactly when the list has. */
  lemma PreviewHasOpen(sorted: seq<Task>)
    ensures HasOpen(Preview(sorted)) <==> HasOpen(sorted)
  {
    var open := Filter(IsOpen, sorted);
    var p := Preview(sorted);
    if HasOpen(sorted) {
      var i :| 0 <= i < |sorted| && !sorted[i].completed;
      assert sorted[i] in open;
      assert !p[0].completed;
    } else {
      assert |open| > 0 ==> open[0] in sorted && IsOpen(open[0]);
    }
  }

  // ---------------------------------------------------------------------
  // The grouping as a value

  /** What one lead's list becomes: sorted, then previewed. */
  function ShownList(leadTasks: seq<Task>): seq<Task>
  {
    Preview(SortBy(SortKey, leadTasks))
  }

  /** One lead's list: its tasks in input order, sorted, then previewed. */
  function LeadPreview(tasks: seq<Task>, leadId: int): seq<Task>
  {
    ShownList(Group(LeadOf, tasks, leadId))
  }

  /** The map `groupTasksByLead` publishes. */
  function GroupedTasks(tasks: seq<Task>): map<int, seq<Task>>
  {
    MapValues(GroupMap(LeadOf, tasks), ShownList)
  }

  /** The set of leads whose shown list still has open work. */
  function ExpandedOf(grouped: map<int, seq<Task>>): set<int>
  {
    set k | k in grouped && HasOpen(grouped[k])
  }

  /** The leads of the open input tasks. */
  function LeadsWithOpenTasks(tasks: seq<Task>): set<int>
  {
    set i | 0 <= i < |tasks| && !tasks[i].completed :: tasks[i].leadId
  }

  /** One lead's tasks after the sort are exactly the input tasks that
      carry that lead. */
  lemma SortedGroupMembers(tasks: seq<Task>, k: int)
    ensures forall t :: t in SortBy(SortKey, Group(LeadOf, tasks, k)) <==> t in tasks && t.leadId == k
  {
    var grp := Group(LeadOf, tasks, k);
    var sorted := SortBy(SortKey, grp);
    GroupMembers(LeadOf, tasks, k);
    SortByPermutation(SortKey, grp);
    forall t ensures t in sorted <==> t in tasks && t.leadId == k {
      assert t in sorted <==> t in multiset(sorted);
      assert t in grp <==> t in multiset(grp);
      if t in tasks && t.leadId == k {
        var i :| 0 <= i < |tasks| && tasks[i] == t;
      }
    }
  }

  /** A lead of the input previews to one to three of its own tasks. */
  lemma LeadPreviewShape(tasks: seq<Task>, k: int)
    requires k in KeysOf(LeadOf, tasks)
    ensures 1 <= |LeadPreview(tasks, k)| <= 3
    ensures forall t :: t in LeadPreview(tasks, k) ==> t.leadId == k && t in tasks
  {
    var sorted := SortBy(SortKey, Group(LeadOf, tasks, k));
    SortedGroupMembers(tasks, k);
    var i :| 0 <= i < |tasks| && tasks[i].leadId == k;
    assert tasks[i] in sorted;
    PreviewShape(sorted);
  }

  /** The grouped map has one entry per distinct lead of the input; each
      entry is one to three tasks of the input that carry that lead. */
  lemma GroupedTasksShape(tasks: seq<Task>)
    ensures forall k :: k in GroupedTasks(tasks) <==> exists i :: 0 <= i < |tasks| && tasks[i].leadId == k
    ensures forall k :: k in GroupedTasks(tasks) ==> 1 <= |GroupedTasks(tasks)[k]| <= 3
    ensures forall k, t :: k in GroupedTasks(tasks) && t in GroupedTasks(tasks)[k] ==> t.leadId == k && t in tasks
  {
    forall k | k in GroupedTasks(tasks)
      ensures 1 <= |GroupedTasks(tasks)[k]| <= 3
      ensures forall t :: t in GroupedTasks(tasks)[k] ==> t.leadId == k && t in tasks
    {
      LeadPreviewShape(tasks, k);
    }
  }

  /** A lead's preview has open work exactly when the lead has an open task. */
  lemma LeadPreviewHasOpen(tasks: seq<Task>, k: int)
    ensures HasOpen(LeadPreview(tasks, k)) <==> exists i :: 0 <= i < |tasks| && tasks[i].leadId == k && !tasks[i].completed
  {
    var sorted := SortBy(SortKey, Group(LeadOf, tasks, k));
    SortedGroupMembers(tasks, k);
    PreviewHasOpen(sorted);
    if HasOpen(sorted) {
      var m :| 0 <= m < |sorted| && !sorted[m].completed;
      assert sorted[m] in sorted;
      var i :| 0 <= i < |tasks| && tasks[i] == sorted[m];
    }
    if i :| 0 <= i < |tasks| && tasks[i].leadId == k && !tasks[i].completed {
      assert tasks[i] in sorted;
      var m :| 0 <= m < |sorted| && sorted[m] == tasks[i];
    }
  }

  /** The leads expanded after grouping are exactly the leads of open tasks. */
  lemma ExpandedAreOpenLeads(tasks: seq<Task>)
    ensures ExpandedOf(GroupedTasks(tasks)) == LeadsWithOpenTasks(tasks)
  {
    var g := GroupedTasks(tasks);
    forall k ensures k in ExpandedOf(g) <==> k in LeadsWithOpenTasks(tasks) {
      LeadPreviewHasOpen(tasks, k);
    }
  }

  /** The test "open task of this lead". */
  function OpenOf(leadId: int): Task -> bool
  {
    (t: Task) => t.leadId == leadId && !t.completed
  }

  /** The open tasks of one lead, in input order. */
  function OpenOfLead(tasks: seq<Task>, leadId: int): seq<Task>
  {
    Filter(OpenOf(leadId), tasks)
  }

  /** Grouping and sorting keep the number of a lead's open tasks. */
  lemma SortedGroupOpenCount(tasks: seq<Task>, leadId: int)
    ensures |Filter(IsOpen, SortBy(SortKey, Group(LeadOf, tasks, leadId)))| == |OpenOfLead(tasks, leadId)|
  {
    var grp := Group(LeadOf, tasks, leadId);
    GroupIsFilter(LeadOf, tasks, leadId);
    forall t: Task | OpenOf(leadId)(t)
      ensures HasKey(LeadOf, leadId)(t)
    {
      assert LeadOf(t) == leadId;
    }
    FilterOfFilter(OpenOf(leadId), HasKey(LeadOf, leadId), tasks);
    GroupMembers(LeadOf, tasks, leadId);
    assert forall i :: 0 <= i < |grp| ==> grp[i] in grp;
    FilterCongruent(IsOpen, OpenOf(leadId), grp);
    SortByPermutation(SortKey, grp);
    FilterPermutation(IsOpen, SortBy(SortKey, grp), grp);
  }

  /** The preview shows as many open tasks as the list has, capped at three. */
  lemma PreviewOpenCount(sorted: seq<Task>)
    ensures |Filter(IsOpen, Preview(sorted))| == Min(3, |Filter(IsOpen, sorted)|)
  {
    var open := Filter(IsOpen, sorted);
    var done := Filter(IsDone, sorted);
    if open != [] {
      FilterAll(IsOpen, open[..Min(3, |open|)]);
    } else {
      var p := done[|done| - Min(2, |done|)..];
      assert forall i :: 0 <= i < |p| ==> p[i] in done;
      FilterNone(IsOpen, p);
    }
  }

  /** `groupedTasks().get(leadId) || []`: an array is always truthy, so a
      known lead gives its list and an unknown one the empty list. */
  function LeadTasksIn(grouped: map<int, seq<Task>>, leadId: int): seq<Task>
  {
    if leadId in grouped then grouped[leadId] else []
  }

  /** After grouping, a lead of the input gets its preview and any other
      lead gets the empty list. */
  lemma LeadTasksAfterGrouping(tasks: seq<Task>, leadId: int)
    ensures leadId in KeysOf(LeadOf, tasks) ==> LeadTasksIn(GroupedTasks(tasks), leadId) == LeadPreview(tasks, leadId)
    ensures (forall i :: 0 <= i < |tasks| ==> tasks[i].leadId != leadId) ==> LeadTasksIn(GroupedTasks(tasks), leadId) == []
  {
    if leadId in KeysOf(LeadOf, tasks) {
      var i :| 0 <= i < |tasks| && LeadOf(tasks[i]) == leadId;
    }
  }

  /** On a sorted list the preview is a slice: with k > 0 open tasks, the
      first min(3, k) tasks of the list; with none, its last one or two. */
  lemma PreviewOfSorted(sorted: seq<Task>)
    requires SortedBy(SortKey, sorted)
    ensures var k := |Filter(IsOpen, sorted)|;
            && (k > 0 ==> Preview(sorted) == sorted[..Min(3, k)])
            && (k == 0 ==> Preview(sorted) == sorted[|sorted| - Min(2, |sorted|)..])
  {
    OpenPrefix(sorted);
    if |Filter(IsOpen, sorted)| == 0 {
      PreviewAllDone(sorted);
    } else {
      PreviewOpenPrefix(sorted);
    }
  }

  lemma PreviewAllDone(sorted: seq<Task>)
    requires |Filter(IsOpen, sorted)| == 0
    ensures Preview(sorted) == sorted[|sorted| - Min(2, |sorted|)..]
  {
    assert forall i :: 0 <= i < |sorted| ==> IsDone(sorted[i]);
    FilterAll(IsDone, sorted);
  }

  lemma PreviewOpenPrefix(sorted: seq<Task>)
    requires var open := Filter(IsOpen, sorted); |open| > 0 && open == sorted[..|open|]
    ensures Preview(sorted) == sorted[..Min(3, |Filter(IsOpen, sorted)|)]
  {
    var open := Filter(IsOpen, sorted);
    var m := Min(3, |open|);
    assert open[..m] == sorted[..m];
  }

  /** After grouping, a lead shows as many open tasks as it has, capped at
      three; an unknown lead shows none. */
  lemma OpenShownCount(tasks: seq<Task>, leadId: int)
    ensures |Filter(IsOpen, LeadTasksIn(GroupedTasks(tasks), leadId))| == Min(3, |OpenOfLead(tasks, leadId)|)
  {
    var sorted := SortBy(SortKey, Group(LeadOf, tasks, leadId));
    SortedGroupOpenCount(tasks, leadId);
    LeadTasksAfterGrouping(tasks, leadId);
    if leadId in KeysOf(LeadOf, tasks) {
      PreviewOpenCount(sorted);
    } else {
      assert forall i :: 0 <= i < |tasks| ==> LeadOf(tasks[i]) in KeysOf(LeadOf, tasks);
      FilterNone(OpenOf(leadId), tasks);
    }
  }

  /** Adds or removes one lead from a set of expanded leads. */
  function Toggle(expanded: set<int>, leadId: int): (r: set<int>)
    ensures leadId in r <==> leadId !in expanded
    ensures forall k :: k != leadId ==> (k in r <==> k in expanded)
  {
    if leadId in expanded then expanded - {leadId} else expanded + {leadId}
  }

  /** Toggling flips the one lead, leaves every other lead as it was, and
      toggling twice restores the set. */
  lemma ToggleSpec(expanded: set<int>, leadId: int)
    ensures leadId in Toggle(expanded, leadId) <==> leadId !in expanded
    ensures forall k :: k != leadId ==> (k in Toggle(expanded, leadId) <==> k in expanded)
    ensures Toggle(Toggle(expanded, leadId), leadId) == expanded
  {
  }

  /** The `status` argument of the request: none for the `'all'` filter. */
  function StatusParam(filterStatus: string): (r: Option<string>)
    ensures r.None? <==> filterStatus == "all"
    ensures r.Some? ==> r.value == filterStatus
  {
    if filterStatus == "all" then None else Some(filterStatus)
  }

  /** The first pass of `groupTasksByLead`: each task is pushed onto its
      lead's list, which is created on first use. */
  method BucketByLead(input: seq<Task>) returns (grouped: map<int, seq<Task>>)
    ensures grouped == GroupMap(LeadOf, input)
  {
    grouped := map[];
    var i := 0;
    while i < |input|
      invariant 0 <= i <= |input|
      invariant grouped == GroupMap(LeadOf, input[..i])
    {
      var task := input[i];
      var bucket := if task.leadId in grouped then grouped[task.leadId] else [];
      grouped := grouped[task.leadId := bucket + [task]];
      GroupMapStep(LeadOf, input, i);
      i := i + 1;
    }
    assert input[..i] == input;
  }

  /** One lead's list as the second pass leaves it: copied into an array,
      sorted there, then cut down to its preview. */
  method PreviewOf(leadTasks: seq<Task>) returns (shown: seq<Task>)
    ensures shown == ShownList(leadTasks)
  {
    var a := new Task[|leadTasks|](m requires 0 <= m < |leadTasks| => leadTasks[m]);
    assert a[..] == leadTasks;
    SortInPlace(SortKey, a);
    var open := Filter(IsOpen, a[..]);
    var done := Filter(IsDone, a[..]);
    if |open| > 0 {
      shown := open[..Min(3, |open|)];
    } else {
      shown := done[|done| - Min(2, |done|)..];
    }
  }

  /** The second pass: every list is sorted and overwritten by its preview. */
  method PreviewBuckets(buckets: map<int, seq<Task>>) returns (grouped: map<int, seq<Task>>)
    ensures grouped == MapValues(buckets, ShownList)
  {
    grouped := buckets;
    var pending := grouped.Keys;
    while pending != {}
      invariant PartlyMapped(buckets, grouped, pending, ShownList)
      decreases pending
    {
      NonEmptyHasElement(pending);
      var lead :| lead in pending;
      var shown := PreviewOf(grouped[lead]);
      PartlyMappedStep(buckets, grouped, pending, ShownList, lead, shown);
      grouped := grouped[lead := shown];
      pending := pending - {lead};
    }
    PartlyMappedDone(buckets, grouped, ShownList);
  }

  /** The third pass: the leads whose list has an open task. */
  method ExpandedLeads(grouped: map<int, seq<Task>>) returns (expanded: set<int>)
    ensures expanded == ExpandedOf(grouped)
  {
    expanded := {};
    var pending := grouped.Keys;
    while pending != {}
      invariant pending <= grouped.Keys
      invariant expanded == set k | k in grouped && k !in pending && HasOpen(grouped[k])
      decreases pending
    {
      NonEmptyHasElement(pending);
      var lead :| lead in pending;
      if HasOpen(grouped[lead]) {
        expanded := expanded + {lead};
      }
      pending := pending - {lead};
    }
  }

  class TasksPage {
    var tasks: seq<Task>
    var groupedTasks: map<int, seq<Task>>
    var isLoading: bool
    var filterStatus: string
    var filterCompleted: Option<bool>
    var expandedLeads: set<int>

    constructor ()
      ensures tasks == [] && groupedTasks == map[] && !isLoading
      ensures filterStatus == "all" && filterCompleted.None? && expandedLeads == {}
    {
      tasks := [];
      groupedTasks := map[];
      isLoading := false;
      filterStatus := "all";
      filterCompleted := None;
      expandedLeads := {};
    }

    /** The first half of `loadTasks`: raise the loading flag and build the
        request arguments from the filters (`'all'` sends no status, a null
        completion filter sends no flag). */
    method LoadTasks() returns (status: Option<string>, completed: Option<bool>)
      modifies this
      ensures isLoading
      ensures status == StatusParam(filterStatus) && completed == filterCompleted
      ensures tasks == old(tasks) && groupedTasks == old(groupedTasks) && expandedLeads == old(expandedLeads)
      ensures filterStatus == old(filterStatus) && filterCompleted == old(filterCompleted)
    {
      isLoading := true;
      status := if filterStatus == "all" then None else Some(filterStatus);
      completed := filterCompleted;
    }

    /** The second half of `loadTasks`: the response (`None` for an error)
        replaces the task list and regroups it; either way loading ends. */
    method OnTasksLoaded(response: Option<seq<Task>>)
      modifies this
      ensures !isLoading
      ensures response.Some? ==> tasks == response.value && groupedTasks == GroupedTasks(response.value)
      ensures response.Some? ==> expandedLeads == LeadsWithOpenTasks(response.value)
      ensures response.None? ==> tasks == old(tasks) && groupedTasks == old(groupedTasks) && expandedLeads == old(expandedLeads)
      ensures filterStatus == old(filterStatus) && filterCompleted == old(filterCompleted)
    {
      if response.Some? {
        tasks := response.value;
        GroupTasksByLead(response.value);
        ExpandedAreOpenLeads(response.value);
      }
      isLoading := false;
    }

    /** `groupTasksByLead`: bucket the tasks by lead, sort each bucket in
        place and replace it by its preview, then expand the leads whose
        preview still has open work. */
    method GroupTasksByLead(input: seq<Task>)
      modifies this
      ensures groupedTasks == GroupedTasks(input)
      ensures expandedLeads == ExpandedOf(groupedTasks)
      ensures tasks == old(tasks) && isLoading == old(isLoading)
      ensures filterStatus == old(filterStatus) && filterCompleted == old(filterCompleted)
    {
      var grouped := BucketByLead(input);
      grouped := PreviewBuckets(grouped);
      groupedTasks := grouped;
      expandedLeads := ExpandedLeads(grouped);
    }

    /** `toggleLead`: flips one lead in the expanded set. */
    method ToggleLead(leadId: int)
      modifies this
      ensures expandedLeads == Toggle(old(expandedLeads), leadId)
      ensures tasks == old(tasks) && groupedTasks == old(groupedTasks) && isLoading == old(isLoading)
      ensures filterStatus == old(filterStatus) && filterCompleted == old(filterCompleted)
    {
      var expanded := expandedLeads;
      if leadId in expanded {
        expanded := expanded - {leadId};
      } else {
        expanded := expanded + {leadId};
      }
      expandedLeads := expanded;
    }

    predicate IsLeadExpanded(leadId: int)
      reads this
    {
      leadId in expandedLeads
    }

    function GetLeadTasks(leadId: int): seq<Task>
      reads this
    {
      LeadTasksIn(groupedTasks, leadId)
    }

    function GetUncompletedCount(leadId: int): nat
      reads this
    {
      |Filter(IsOpen, GetLeadTasks(leadId))|
    }
  }

  /** After a successful load a lead's open-task badge is its number of open
      tasks capped at three, and its row is expanded exactly when it has
      any. */
  lemma LoadedPageCounts(page: TasksPage, tasks: seq<Task>, leadId: int)
    requires page.groupedTasks == GroupedTasks(tasks) && page.expandedLeads == LeadsWithOpenTasks(tasks)
    ensures page.GetUncompletedCount(leadId) == Min(3, |OpenOfLead(tasks, leadId)|)
    ensures page.IsLeadExpanded(leadId) <==> |OpenOfLead(tasks, leadId)| > 0
  {
    OpenShownCount(tasks, leadId);
    OpenLeadsHaveOpenTasks(tasks, leadId);
  }

  /** A lead is among the leads of open tasks exactly when it has an open task. */
  lemma OpenLeadsHaveOpenTasks(tasks: seq<Task>, leadId: int)
    ensures leadId in LeadsWithOpenTasks(tasks) <==> |OpenOfLead(tasks, leadId)| > 0
  {
    var open := OpenOfLead(tasks, leadId);
    if leadId in LeadsWithOpenTasks(tasks) {
      var i :| 0 <= i < |tasks| && !tasks[i].completed && tasks[i].leadId == leadId;
      assert OpenOf(leadId)(tasks[i]);
      assert tasks[i] in open;
    }
    if |open| > 0 {
      assert open[0] in tasks && OpenOf(leadId)(open[0]);
      var i :| 0 <= i < |tasks| && tasks[i] == open[0];
    }
  }
}

/** The working-hours modal: an admin's weekly schedule, seven days from
    Sunday (0) to Saturday (6), merged from defaults and the admin's saved
    entries, edited as one form group per day and saved as a plain list. */
module WorkingHours {
  import opened Js
  import opened StableSort

  datatype WorkingDay = WorkingDay(day: int, dayName: string, startTime: string, endTime: string, enabled: bool)

  /** An entry of the admin's saved `workingDays`.  Apart from the day
      number every field may be missing (`None`), and a spread then keeps
      the default's value. */
  datatype SavedDay = SavedDay(day: int, dayName: Option<string>, startTime: Option<string>,
                               endTime: Option<string>, enabled: Option<bool>)

  /** The admin object the modal is opened for. */
  class Admin {
    var id: int
    /** `None` when the field is missing or not an array. */
    var workingDays: Option<seq<SavedDay>>

    constructor (id: int, workingDays: Option<seq<SavedDay>>)
      ensures this.id == id && this.workingDays == workingDays
    {
      this.id := id;
      this.workingDays := workingDays;
    }
  }

  /** The schedule the modal starts from: Monday to Friday on, the weekend
      off, every day 09:00 to 18:00. */
  const Defaults: seq<WorkingDay> := [
    WorkingDay(0, "Воскресенье", "09:00", "18:00", false),
    WorkingDay(1, "Понедельник", "09:00", "18:00", true),
    WorkingDay(2, "Вторник", "09:00", "18:00", true),
    WorkingDay(3, "Среда", "09:00", "18:00", true),
    WorkingDay(4, "Четверг", "09:00", "18:00", true),
    WorkingDay(5, "Пятница", "09:00", "18:00", true),
    WorkingDay(6, "Суббота", "09:00", "18:00", false)
  ]

  lemma DefaultsSpec()
    ensures |Defaults| == 7
    ensures forall i :: 0 <= i < 7 ==> Defaults[i].day == i
    ensures forall i :: 0 <= i < 7 ==> (Defaults[i].enabled <==> 1 <= i <= 5)
    ensures forall i :: 0 <= i < 7 ==> Defaults[i].startTime == "09:00" && Defaults[i].endTime == "18:00"
  {
  }

  // ---------------------------------------------------------------------
  // Merging saved entries over the defaults

  /** The comparator `(a, b) => a.day - b.day` as a sort key. */
  function DayKey(d: SavedDay): seq<int>
  {
    [d.day]
  }

  /** `s.find(d => d.day === day)`. */
  function FindDay(s: seq<SavedDay>, day: int): (r: Option<SavedDay>)
    ensures r.Some? ==> r.value in s && r.value.day == day
  {
    if s == [] then None
    else if s[0].day == day then Some(s[0])
    else FindDay(s[1..], day)
  }

  /** `find` returns the first entry for the day, and nothing only when no
      entry has that day. */
  lemma {:induction false} FindDaySpec(s: seq<SavedDay>, day: int)
    ensures FindDay(s, day).None? <==> forall i :: 0 <= i < |s| ==> s[i].day != day
    ensures FindDay(s, day).Some? ==>
              exists j :: 0 <= j < |s| && s[j] == FindDay(s, day).value && forall k :: 0 <= k < j ==> s[k].day != day
  {
    if s != [] && s[0].day != day {
      FindDaySpec(s[1..], day);
      if FindDay(s, day).Some? {
        var j :| 0 <= j < |s[1..]| && s[1..][j] == FindDay(s, day).value && forall k :: 0 <= k < j ==> s[1..][k].day != day;
        assert s[j + 1] == FindDay(s, day).value;
        assert forall k :: 0 <= k < j + 1 ==> s[k].day != day by {
          forall k | 0 <= k < j + 1 ensures s[k].day != day {
            if k > 0 {
              assert s[k] == s[1..][k - 1];
            }
          }
        }
      }
    } else if s != [] {
      assert s[0] == FindDay(s, day).value;
    }
  }

  function FirstOf(s: seq<SavedDay>): Option<SavedDay>
  {
    if s == [] then None else Some(s[0])
  }

  /** `find` picks the head of the entries with that day. */
  lemma {:induction false} FindDayIsFirstWithKey(s: seq<SavedDay>, day: int)
    ensures FindDay(s, day) == FirstOf(WithKey(DayKey, [day], s))
  {
    if s != [] {
      FindDayIsFirstWithKey(s[1..], day);
      assert DayKey(s[0]) == [day] <==> s[0].day == day;
    }
  }

  /** Because the sort is stable, searching the sorted copy finds the same
      entry as searching the saved list: the first one for that day. */
  lemma FindDayAfterSort(s: seq<SavedDay>, day: int)
    ensures FindDay(SortBy(DayKey, s), day) == FindDay(s, day)
  {
    FindDayIsFirstWithKey(s, day);
    FindDayIsFirstWithKey(SortBy(DayKey, s), day);
    SortByStable(DayKey, [day], s);
  }

  /** `{ ...day, ...savedDay }`: every field the saved entry has wins. */
  function Overlay(base: WorkingDay, saved: SavedDay): (r: WorkingDay)
    ensures r.day == saved.day
    ensures r.dayName == (if saved.dayName.Some? then saved.dayName.value else base.dayName)
    ensures r.startTime == (if saved.startTime.Some? then saved.startTime.value else base.startTime)
    ensures r.endTime == (if saved.endTime.Some? then saved.endTime.value else base.endTime)
    ensures r.enabled == (if saved.enabled.Some? then saved.enabled.value else base.enabled)
  {
    WorkingDay(saved.day,
               if saved.dayName.Some? then saved.dayName.value else base.dayName,
               if saved.startTime.Some? then saved.startTime.value else base.startTime,
               if saved.endTime.Some? then saved.endTime.value else base.endTime,
               if saved.enabled.Some? then saved.enabled.value else base.enabled)
  }

  /** One default day after the merge. */
  function MergeDay(sorted: seq<SavedDay>, base: WorkingDay): (r: WorkingDay)
    ensures r.day == base.day
  {
    match FindDay(sorted, base.day)
    case Some(saved) => Overlay(base, saved)
    case None => base
  }

  function MergeAll(days: seq<WorkingDay>, sorted: seq<SavedDay>): (r: seq<WorkingDay>)
    ensures |r| == |days|
    ensures forall i :: 0 <= i < |days| ==> r[i] == MergeDay(sorted, days[i])
  {
    if days == [] then [] else [MergeDay(sorted, days[0])] + MergeAll(days[1..], sorted)
  }

  /** The schedule after `ngOnInit`: a missing or empty saved list leaves
      `days` as it is, otherwise each day is merged with the sorted copy. */
  function Merged(days: seq<WorkingDay>, saved: Option<seq<SavedDay>>): (r: seq<WorkingDay>)
    ensures |r| == |days|
    ensures saved.None? || saved.value == [] ==> r == days
  {
    if saved.Some? && |saved.value| > 0 then MergeAll(days, SortBy(DayKey, saved.value)) else days
  }

  /** The merged week: still seven days 0..6 in order; a day with a saved
      entry takes the fields of the first such entry in the admin's own
      order, a day without one keeps its default. */
  lemma MergedSpec(saved: seq<SavedDay>)
    requires saved != []
    ensures |Merged(Defaults, Some(saved))| == 7
    ensures forall i :: 0 <= i < 7 ==> Merged(Defaults, Some(saved))[i].day == i
    ensures forall i :: 0 <= i < 7 && FindDay(saved, i).None? ==> Merged(Defaults, Some(saved))[i] == Defaults[i]
    ensures forall i :: 0 <= i < 7 && FindDay(saved, i).Some? ==>
              Merged(Defaults, Some(saved))[i] == Overlay(Defaults[i], FindDay(saved, i).value)
  {
    DefaultsSpec();
    MergeSorted(Defaults, saved);
  }

  /** Merging with the sorted copy is merging with the saved list itself. */
  lemma MergeSorted(days: seq<WorkingDay>, saved: seq<SavedDay>)
    ensures forall i :: 0 <= i < |days| ==> MergeAll(days, SortBy(DayKey, saved))[i] == MergeDay(saved, days[i])
  {
    forall i | 0 <= i < |days| ensures MergeDay(SortBy(DayKey, saved), days[i]) == MergeDay(saved, days[i]) {
      FindDayAfterSort(saved, days[i].day);
    }
  }

  predicate InWeek(d: SavedDay)
  {
    0 <= d.day <= 6
  }

  /** Entries whose day number is outside 0..6 play no part in the merge:
      dropping them changes no lookup of a day of the week. */
  lemma {:induction false} OutOfWeekIgnored(s: seq<SavedDay>, day: int)
    requires 0 <= day <= 6
    ensures FindDay(Filter(InWeek, s), day) == FindDay(s, day)
  {
    if s != [] {
      OutOfWeekIgnored(s[1..], day);
      if InWeek(s[0]) {
        assert Filter(InWeek, s) == [s[0]] + Filter(InWeek, s[1..]);
      } else {
        assert Filter(InWeek, s) == Filter(InWeek, s[1..]);
      }
    }
  }

  // ---------------------------------------------------------------------
  // Form groups and the payload

  /** `createDayFormGroup`: the day's number, switch and times; the name is
      not part of the form. */
  datatype DayForm = DayForm(day: int, enabled: bool, startTime: string, endTime: string)

  function CreateDayForm(d: WorkingDay): DayForm
  {
    DayForm(d.day, d.enabled, d.startTime, d.endTime)
  }

  /** `Validators.required` on both times. */
  predicate FormValid(groups: seq<DayForm>)
  {
    forall i :: 0 <= i < |groups| ==> groups[i].startTime != "" && groups[i].endTime != ""
  }

  /** One entry of the saved list. */
  datatype DayPayload = DayPayload(day: int, startTime: string, endTime: string, enabled: bool)

  function PayloadOf(groups: seq<DayForm>): (r: seq<DayPayload>)
    ensures |r| == |groups|
    ensures forall i :: 0 <= i < |groups| ==>
              r[i] == DayPayload(groups[i].day, groups[i].startTime, groups[i].endTime, groups[i].enabled)
  {
    if groups == [] then [] else
      [DayPayload(groups[0].day, groups[0].startTime, groups[0].endTime, groups[0].enabled)] + PayloadOf(groups[1..])
  }

  /** What pressing save does: nothing for an invalid form, a `TypeError`
      when no admin was given, otherwise a request for the admin's id. */
  datatype SaveOutcome = Ignored | NoAdmin | Request(adminId: int, workingDays: seq<DayPayload>)

  /** Opening the modal and saving at once sends the merged schedule back,
      field for field and in order, without the day names. */
  lemma FormsThenPayload(days: seq<WorkingDay>, groups: seq<DayForm>)
    requires |groups| == |days|
    requires forall i :: 0 <= i < |days| ==> groups[i] == CreateDayForm(days[i])
    ensures |PayloadOf(groups)| == |days|
    ensures forall i :: 0 <= i < |days| ==>
              PayloadOf(groups)[i] == DayPayload(days[i].day, days[i].startTime, days[i].endTime, days[i].enabled)
  {
  }

  /** The form groups for `days`, pushed one by one. */
  method BuildForms(days: seq<WorkingDay>) returns (groups: seq<DayForm>)
    ensures |groups| == |days|
    ensures forall i :: 0 <= i < |days| ==> groups[i] == CreateDayForm(days[i])
  {
    groups := [];
    var i := 0;
    while i < |days|
      invariant 0 <= i <= |days| && |groups| == i
      invariant forall k :: 0 <= k < i ==> groups[k] == CreateDayForm(days[k])
    {
      groups := groups + [CreateDayForm(days[i])];
      i := i + 1;
    }
  }

  class WorkingHoursModal {
    var admin: Admin?
    var days: seq<WorkingDay>
    /** The `days` FormArray. */
    var formDays: seq<DayForm>
    /** Whether the modal has been closed. */
    var hidden: bool

    constructor (admin: Admin?)
      ensures this.admin == admin && days == Defaults && formDays == [] && !hidden
    {
      this.admin := admin;
      days := Defaults;
      formDays := [];
      hidden := false;
    }

    /** `ngOnInit`: merge the saved entries over `days`, then push one form
        group per day.  The admin's saved list is neither changed nor
        reordered. */
    method NgOnInit()
      modifies this
      ensures admin == old(admin) && hidden == old(hidden)
      ensures admin != null ==> admin.workingDays == old(admin.workingDays)
      ensures days == Merged(old(days), if admin != null then admin.workingDays else None)
      ensures |formDays| == |old(formDays)| + |days|
      ensures formDays[..|old(formDays)|] == old(formDays)
      ensures forall i :: 0 <= i < |days| ==> formDays[|old(formDays)| + i] == CreateDayForm(days[i])
    {
      if admin != null && admin.workingDays.Some? && |admin.workingDays.value| > 0 {
        var sorted := SortedCopy(DayKey, admin.workingDays.value);
        days := MergeAll(days, sorted);
      }
      var groups := BuildForms(days);
      formDays := formDays + groups;
    }

    /** `save`: an invalid form is ignored; otherwise the request lists each
        group's day, times and switch in form order. */
    method Save() returns (outcome: SaveOutcome)
      ensures !FormValid(formDays) ==> outcome == Ignored
      ensures FormValid(formDays) && admin == null ==> outcome == NoAdmin
      ensures FormValid(formDays) && admin != null ==> outcome == Request(admin.id, PayloadOf(formDays))
    {
      if !FormValid(formDays) {
        return Ignored;
      }
      if admin == null {
        return NoAdmin;
      }
      outcome := Request(admin.id, PayloadOf(formDays));
    }

    /** The request succeeded, or the user cancelled: the modal closes. */
    method Close()
      modifies this
      ensures hidden
      ensures admin == old(admin) && days == old(days) && formDays == old(formDays)
    {
      hidden := true;
    }
  }
}

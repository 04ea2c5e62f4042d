/** The admin details modal: the project label, the working-hours flag,
    the edit form for project and permissions, and the tab switch that
    loads statistics on first use.  The form's permissions are an object
    that is shared with the loaded admin, so a class models them. */
module AdminDetails {
  import opened Js

  datatype Permission = CanAddCars | CanViewCars | CanManageLeads | CanViewLeads

  /** The permissions object of an admin; the edit form holds a reference to
      one. */
  class PermissionSet {
    var canAddCars: bool
    var canViewCars: bool
    var canManageLeads: bool
    var canViewLeads: bool

    constructor (addCars: bool, viewCars: bool, manageLeads: bool, viewLeads: bool)
      ensures canAddCars == addCars && canViewCars == viewCars
      ensures canManageLeads == manageLeads && canViewLeads == viewLeads
    {
      canAddCars, canViewCars, canManageLeads, canViewLeads := addCars, viewCars, manageLeads, viewLeads;
    }

    function Get(p: Permission): bool
      reads this
    {
      match p
      case CanAddCars => canAddCars
      case CanViewCars => canViewCars
      case CanManageLeads => canManageLeads
      case CanViewLeads => canViewLeads
    }

    predicate AllFalse()
      reads this
    {
      !canAddCars && !canViewCars && !canManageLeads && !canViewLeads
    }

    /** A checkbox of the form bound to one flag. */
    method Set(p: Permission, value: bool)
      modifies this
      ensures Get(p) == value
      ensures forall q: Permission :: q != p ==> Get(q) == old(Get(q))
    {
      match p
      case CanAddCars => canAddCars := value;
      case CanViewCars => canViewCars := value;
      case CanManageLeads => canManageLeads := value;
      case CanViewLeads => canViewLeads := value;
    }
  }

  /** A working day; `enabled` may be missing, and only `true` counts. */
  datatype WorkingDay = WorkingDay(day: int, startTime: string, endTime: string, enabled: Option<bool>)

  datatype Admin = Admin(
    id: int,
    email: string,
    isSuper: bool,
    projectId: Option<string>,
    permissions: Option<PermissionSet>,
    workingDays: Option<seq<WorkingDay>>)

  datatype Tab = Info | Stats

  /** The body of `updateAdmin`: the project id (null for none) and the
      form's permissions object. */
  datatype UpdateRequest = UpdateRequest(id: int, projectId: Option<string>, permissions: PermissionSet)

  const Unassigned := "Не назначен"
  const ProjectLabels: map<string, string> := map["office_1" := "Офис 1", "office_2" := "Офис 2"]

  /** `getProjectLabel`: a missing or empty project is "not assigned", the
      two offices have their labels, and any other id is shown as it is. */
  function ProjectLabel(projectId: Option<string>): (r: string)
    ensures !Present(projectId) ==> r == Unassigned
    ensures Present(projectId) && projectId.value in ProjectLabels ==> r == ProjectLabels[projectId.value]
    ensures Present(projectId) && projectId.value !in ProjectLabels ==> r == projectId.value
  {
    if !Present(projectId) then Unassigned
    else if projectId.value in ProjectLabels then ProjectLabels[projectId.value]
    else projectId.value
  }

  predicate EnabledDay(d: WorkingDay)
  {
    d.enabled == Some(true)
  }

  /** `hasWorkingHours`: false with no admin or no working days, otherwise
      whether some day is enabled. */
  function HasWorkingHours(adminData: Option<Admin>): (r: bool)
    ensures r <==> adminData.Some? && adminData.value.workingDays.Some?
                   && exists i :: 0 <= i < |adminData.value.workingDays.value|
                                  && adminData.value.workingDays.value[i].enabled == Some(true)
  {
    if adminData.None? || adminData.value.workingDays.None? then false
    else
      var days := adminData.value.workingDays.value;
      var enabled := Filter(EnabledDay, days);
      if |enabled| > 0 then
        var d := enabled[0];
        assert d in days && EnabledDay(d);
        true
      else
        assert enabled == [];
        false
  }

  /** The form's project field for an admin's project id, and the project id
      `saveChanges` sends for a form value. */
  function FormProjectId(projectId: Option<string>): string
  {
    OrElse(projectId, "")
  }

  function SentProjectId(form: string): Option<string>
  {
    if form == "" then None else Some(form)
  }

  /** Saving an unchanged form sends the admin's project back, an empty one
      as null; and a form value survives a save and reload. */
  lemma ProjectIdRoundTrip(projectId: Option<string>, form: string)
    ensures SentProjectId(FormProjectId(projectId)) == (if Present(projectId) then projectId else None)
    ensures FormProjectId(SentProjectId(form)) == form
  {
  }

  class AdminDetailsModal {
    /** The admin the list passed in. */
    var admin: Admin
    var adminData: Option<Admin>
    var isLoading: bool
    var isEditing: bool
    var activeTab: Tab
    var stats: Json
    var isLoadingStats: bool
    var editProjectId: string
    var editPermissions: PermissionSet

    constructor (admin: Admin)
      ensures this.admin == admin && adminData == None && isLoading && !isEditing
      ensures activeTab == Info && stats == JNull && !isLoadingStats
      ensures editProjectId == "" && fresh(editPermissions) && editPermissions.AllFalse()
    {
      this.admin := admin;
      adminData := None;
      isLoading, isEditing := true, false;
      activeTab, stats, isLoadingStats := Info, JNull, false;
      editProjectId := "";
      editPermissions := new PermissionSet(false, false, false, false);
    }

    /** `loadAdminData` up to the request: the id of the admin to fetch. */
    method LoadAdminData() returns (requestedId: int)
      modifies this
      ensures requestedId == admin.id && isLoading
      ensures admin == old(admin) && adminData == old(adminData) && isEditing == old(isEditing)
      ensures activeTab == old(activeTab) && stats == old(stats) && isLoadingStats == old(isLoadingStats)
      ensures editProjectId == old(editProjectId) && editPermissions == old(editPermissions)
    {
      isLoading := true;
      requestedId := admin.id;
    }

    /** The form as loading, a failed load and `cancelEdit` set it: the
        admin's project or `''`, and the admin's own permissions object, or a
        new all-false one when it has none. */
    method ResetForm(a: Admin)
      modifies this
      ensures editProjectId == FormProjectId(a.projectId)
      ensures a.permissions.Some? ==> editPermissions == a.permissions.value
      ensures a.permissions.None? ==> fresh(editPermissions) && editPermissions.AllFalse()
      ensures admin == old(admin) && adminData == old(adminData) && isLoading == old(isLoading)
      ensures isEditing == old(isEditing) && activeTab == old(activeTab)
      ensures stats == old(stats) && isLoadingStats == old(isLoadingStats)
    {
      editProjectId := FormProjectId(a.projectId);
      if a.permissions.Some? {
        editPermissions := a.permissions.value;
      } else {
        editPermissions := new PermissionSet(false, false, false, false);
      }
    }

    /** The admin arrived. */
    method OnAdminLoaded(data: Admin)
      modifies this
      ensures adminData == Some(data) && !isLoading
      ensures editProjectId == FormProjectId(data.projectId)
      ensures data.permissions.Some? ==> editPermissions == data.permissions.value
      ensures data.permissions.None? ==> fresh(editPermissions) && editPermissions.AllFalse()
      ensures admin == old(admin) && isEditing == old(isEditing) && activeTab == old(activeTab)
      ensures stats == old(stats) && isLoadingStats == old(isLoadingStats)
    {
      adminData := Some(data);
      ResetForm(data);
      isLoading := false;
    }

    /** Loading failed: the admin passed in is shown and fills the form. */
    method OnAdminLoadError()
      modifies this
      ensures adminData == Some(admin) && !isLoading
      ensures editProjectId == FormProjectId(admin.projectId)
      ensures admin.permissions.Some? ==> editPermissions == admin.permissions.value
      ensures admin.permissions.None? ==> fresh(editPermissions) && editPermissions.AllFalse()
      ensures admin == old(admin) && isEditing == old(isEditing) && activeTab == old(activeTab)
      ensures stats == old(stats) && isLoadingStats == old(isLoadingStats)
    {
      adminData := Some(admin);
      ResetForm(admin);
      isLoading := false;
    }

    /** `toggleEdit`. */
    method ToggleEdit()
      modifies this
      ensures isEditing == !old(isEditing)
      ensures admin == old(admin) && adminData == old(adminData) && isLoading == old(isLoading)
      ensures activeTab == old(activeTab) && stats == old(stats) && isLoadingStats == old(isLoadingStats)
      ensures editProjectId == old(editProjectId) && editPermissions == old(editPermissions)
    {
      isEditing := !isEditing;
    }

    /** A permission checkbox of the form.  The form's object is changed in
        place, so when it is the loaded admin's own object the admin shown
        changes with it, before anything is saved. */
    method SetPermission(p: Permission, value: bool)
      modifies editPermissions
      ensures editPermissions.Get(p) == value
      ensures forall q: Permission :: q != p ==> editPermissions.Get(q) == old(editPermissions.Get(q))
      ensures adminData.Some? && adminData.value.permissions == Some(editPermissions) ==>
                adminData.value.permissions.value.Get(p) == value
    {
      editPermissions.Set(p, value);
    }

    /** `saveChanges`: nothing without a loaded admin; otherwise the form's
        project, `''` sent as null, and the form's permissions object. */
    method SaveChanges() returns (request: Option<UpdateRequest>)
      ensures adminData.None? ==> request == None
      ensures adminData.Some? ==> request.Some? && request.value.id == adminData.value.id
      ensures request.Some? ==> request.value.permissions == editPermissions
      ensures request.Some? ==> (request.value.projectId == None <==> editProjectId == "")
      ensures request.Some? && editProjectId != "" ==> request.value.projectId == Some(editProjectId)
    {
      if adminData.None? {
        return None;
      }
      request := Some(UpdateRequest(adminData.value.id, SentProjectId(editProjectId), editPermissions));
    }

    /** The update succeeded: the returned admin is shown and editing ends. */
    method OnAdminUpdated(updated: Admin)
      modifies this
      ensures adminData == Some(updated) && !isEditing
      ensures admin == old(admin) && isLoading == old(isLoading) && activeTab == old(activeTab)
      ensures stats == old(stats) && isLoadingStats == old(isLoadingStats)
      ensures editProjectId == old(editProjectId) && editPermissions == old(editPermissions)
    {
      adminData := Some(updated);
      isEditing := false;
    }

    /** `cancelEdit`: the form is filled again from the loaded admin, if
        any, and editing ends. */
    method CancelEdit()
      modifies this
      ensures !isEditing
      ensures adminData.Some? ==> editProjectId == FormProjectId(adminData.value.projectId)
      ensures adminData.Some? && adminData.value.permissions.Some? ==>
                editPermissions == adminData.value.permissions.value
      ensures adminData.Some? && adminData.value.permissions.None? ==>
                fresh(editPermissions) && editPermissions.AllFalse()
      ensures adminData.None? ==> editProjectId == old(editProjectId) && editPermissions == old(editPermissions)
      ensures admin == old(admin) && adminData == old(adminData) && isLoading == old(isLoading)
      ensures activeTab == old(activeTab) && stats == old(stats) && isLoadingStats == old(isLoadingStats)
    {
      if adminData.Some? {
        ResetForm(adminData.value);
      }
      isEditing := false;
    }

    /** `ResetForm` as it evidently should be: the form gets its own copy of
        the admin's permissions. */
    method ResetFormCopying(a: Admin)
      modifies this
      ensures editProjectId == FormProjectId(a.projectId)
      ensures fresh(editPermissions)
      ensures a.permissions.Some? ==>
                forall p: Permission :: editPermissions.Get(p) == a.permissions.value.Get(p)
      ensures a.permissions.None? ==> editPermissions.AllFalse()
      ensures admin == old(admin) && adminData == old(adminData) && isLoading == old(isLoading)
      ensures isEditing == old(isEditing) && activeTab == old(activeTab)
      ensures stats == old(stats) && isLoadingStats == old(isLoadingStats)
    {
      editProjectId := FormProjectId(a.projectId);
      if a.permissions.Some? {
        var q := a.permissions.value;
        editPermissions := new PermissionSet(q.canAddCars, q.canViewCars, q.canManageLeads, q.canViewLeads);
      } else {
        editPermissions := new PermissionSet(false, false, false, false);
      }
    }

    /** `OnAdminLoaded` with a copied form. */
    method OnAdminLoadedCopying(data: Admin)
      modifies this
      ensures adminData == Some(data) && !isLoading
      ensures editProjectId == FormProjectId(data.projectId) && fresh(editPermissions)
      ensures data.permissions.Some? ==>
                forall p: Permission :: editPermissions.Get(p) == data.permissions.value.Get(p)
      ensures data.permissions.None? ==> editPermissions.AllFalse()
      ensures admin == old(admin) && isEditing == old(isEditing) && activeTab == old(activeTab)
      ensures stats == old(stats) && isLoadingStats == old(isLoadingStats)
    {
      adminData := Some(data);
      ResetFormCopying(data);
      isLoading := false;
    }

    /** `CancelEdit` with a copied form: the form shows the saved flags
        again. */
    method CancelEditCopying()
      modifies this
      ensures !isEditing
      ensures adminData.Some? ==> editProjectId == FormProjectId(adminData.value.projectId) && fresh(editPermissions)
      ensures adminData.Some? && adminData.value.permissions.Some? ==>
                forall p: Permission :: editPermissions.Get(p) == adminData.value.permissions.value.Get(p)
      ensures adminData.Some? && adminData.value.permissions.None? ==> editPermissions.AllFalse()
      ensures adminData.None? ==> editProjectId == old(editProjectId) && editPermissions == old(editPermissions)
      ensures admin == old(admin) && adminData == old(adminData) && isLoading == old(isLoading)
      ensures activeTab == old(activeTab) && stats == old(stats) && isLoadingStats == old(isLoadingStats)
    {
      if adminData.Some? {
        ResetFormCopying(adminData.value);
      }
      isEditing := false;
    }

    /** `onTabChange`: the tab is always switched; statistics are requested
        only for the stats tab, when none are loaded and an admin is. */
    method OnTabChange(tab: Tab) returns (statsRequest: Option<int>)
      modifies this
      ensures activeTab == tab
      ensures statsRequest.Some? <==> tab == Stats && !Truthy(stats) && adminData.Some?
      ensures statsRequest.Some? ==> statsRequest.value == adminData.value.id && isLoadingStats
      ensures statsRequest.None? ==> isLoadingStats == old(isLoadingStats)
      ensures admin == old(admin) && adminData == old(adminData) && isLoading == old(isLoading)
      ensures isEditing == old(isEditing) && stats == old(stats)
      ensures editProjectId == old(editProjectId) && editPermissions == old(editPermissions)
    {
      activeTab := tab;
      statsRequest := None;
      if tab == Stats && !Truthy(stats) && adminData.Some? {
        isLoadingStats := true;
        statsRequest := Some(adminData.value.id);
      }
    }

    /** The statistics arrived (`Some`) or the request failed (`None`). */
    method OnStats(result: Option<Json>)
      modifies this
      ensures !isLoadingStats
      ensures stats == (if result.Some? then result.value else old(stats))
      ensures admin == old(admin) && adminData == old(adminData) && isLoading == old(isLoading)
      ensures isEditing == old(isEditing) && activeTab == old(activeTab)
      ensures editProjectId == old(editProjectId) && editPermissions == old(editPermissions)
    {
      if result.Some? {
        stats := result.value;
      }
      isLoadingStats := false;
    }
  }

  /** As written: ticking a permission and then cancelling leaves the tick
      in the form, and the loaded admin's permissions show it too, although
      nothing was saved. */
  method CancelKeepsUnsavedPermission() returns (formFlag: bool, shownFlag: bool)
    ensures formFlag && shownFlag
  {
    var saved := new PermissionSet(false, false, false, false);
    var a := Admin(1, "admin@example.com", false, Some("office_1"), Some(saved), None);
    var modal := new AdminDetailsModal(a);
    modal.OnAdminLoaded(a);
    modal.ToggleEdit();
    modal.SetPermission(CanAddCars, true);
    modal.CancelEdit();
    formFlag := modal.editPermissions.canAddCars;
    shownFlag := saved.canAddCars;
  }

  /** With the form copying the permissions, the same steps leave the
      loaded admin untouched and the form back at the saved flag. */
  method CancelRestoresPermission() returns (formFlag: bool, shownFlag: bool)
    ensures !formFlag && !shownFlag
  {
    var saved := new PermissionSet(false, false, false, false);
    var a := Admin(1, "admin@example.com", false, Some("office_1"), Some(saved), None);
    var modal := new AdminDetailsModal(a);
    modal.OnAdminLoadedCopying(a);
    modal.ToggleEdit();
    modal.SetPermission(CanAddCars, true);
    modal.CancelEditCopying();
    assert modal.editPermissions.Get(CanAddCars) == saved.Get(CanAddCars);
    formFlag := modal.editPermissions.canAddCars;
    shownFlag := saved.canAddCars;
  }
}

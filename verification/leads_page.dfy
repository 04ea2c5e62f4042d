/** The leads page: the filter bar and the request it sends, the
    create/edit form, the selection, and the label and class tables of the
    list. */
module LeadsPage {
  import opened Js
  import AppService

  datatype Lead = Lead(
    id: int,
    name: string,
    email: Option<string>,
    phone: Option<string>,
    source: string,
    status: string,
    priority: string,
    hasTelegramContact: bool,
    telegramUsername: Option<string>,
    chatSessionId: Option<string>,
    description: Option<string>)

  datatype LeadForm = LeadForm(
    name: string,
    email: string,
    phone: string,
    source: string,
    status: string,
    priority: string,
    hasTelegramContact: bool,
    telegramUsername: string,
    description: string)

  /** What `saveLead` sends: an update of the lead being edited, or a new
      lead. */
  datatype SaveRequest = UpdateLead(id: int, data: LeadForm) | CreateLead(data: LeadForm)

  // ---------------------------------------------------------------------
  // Label and class tables

  const Statuses := ["new", "in_progress", "contacted", "closed", "lost"]
  const Sources := ["chat", "telegram", "phone", "email", "other"]
  const Priorities := ["low", "normal", "high", "urgent"]

  const StatusLabels: map<string, string> :=
    map["new" := "Новый", "in_progress" := "В работе", "contacted" := "Связались", "closed" := "Закрыт", "lost" := "Потерян"]
  const SourceLabels: map<string, string> :=
    map["chat" := "Чат", "telegram" := "Telegram", "phone" := "Телефон", "email" := "Email", "other" := "Другое"]
  const PriorityLabels: map<string, string> :=
    map["low" := "Низкий", "normal" := "Обычный", "high" := "Высокий", "urgent" := "Срочный"]
  const StatusClasses: map<string, string> :=
    map["new" := "status-new", "in_progress" := "status-in-progress", "contacted" := "status-contacted",
        "closed" := "status-closed", "lost" := "status-lost"]
  const PriorityClasses: map<string, string> :=
    map["low" := "priority-low", "normal" := "priority-normal", "high" := "priority-high", "urgent" := "priority-urgent"]

  /** `table[key] || fallback`. */
  function LookupOr(table: map<string, string>, key: string, fallback: string): string
  {
    if key in table && table[key] != "" then table[key] else fallback
  }

  function StatusLabel(status: string): string
  {
    LookupOr(StatusLabels, status, status)
  }

  function SourceLabel(source: string): string
  {
    LookupOr(SourceLabels, source, source)
  }

  function PriorityLabel(priority: string): string
  {
    LookupOr(PriorityLabels, priority, priority)
  }

  function StatusClass(status: string): string
  {
    LookupOr(StatusClasses, status, "")
  }

  function PriorityClass(priority: string): string
  {
    LookupOr(PriorityClasses, priority, "")
  }

  /** Every member of the status union has its own non-empty label and
      class; any other value is shown as it is, with no class. */
  lemma StatusTables(status: string)
    ensures status in Statuses ==> StatusLabel(status) == StatusLabels[status] != ""
    ensures status in Statuses ==> StatusClass(status) == StatusClasses[status] != ""
    ensures status !in Statuses ==> StatusLabel(status) == status && StatusClass(status) == ""
    ensures forall a, b :: 0 <= a < b < |Statuses| ==> StatusClasses[Statuses[a]] != StatusClasses[Statuses[b]]
  {
    assert StatusLabels.Keys == StatusClasses.Keys == set s | s in Statuses;
  }

  /** Every member of the source union has its own non-empty label; any
      other value is shown as it is. */
  lemma SourceTable(source: string)
    ensures source in Sources ==> SourceLabel(source) == SourceLabels[source] != ""
    ensures source !in Sources ==> SourceLabel(source) == source
  {
    assert SourceLabels.Keys == set s | s in Sources;
  }

  /** Every member of the priority union has its own non-empty label and
      class; any other value is shown as it is, with no class. */
  lemma PriorityTables(priority: string)
    ensures priority in Priorities ==> PriorityLabel(priority) == PriorityLabels[priority] != ""
    ensures priority in Priorities ==> PriorityClass(priority) == PriorityClasses[priority] != ""
    ensures priority !in Priorities ==> PriorityLabel(priority) == priority && PriorityClass(priority) == ""
    ensures forall a, b :: 0 <= a < b < |Priorities| ==> PriorityClasses[Priorities[a]] != PriorityClasses[Priorities[b]]
  {
    assert PriorityLabels.Keys == PriorityClasses.Keys == set s | s in Priorities;
  }

  // ---------------------------------------------------------------------
  // The filter object

  /** The `filters` object of `loadLeads`: a key for each filter that is
      truthy, holding its value. */
  function FilterObject(status: string, source: string, admin: Option<int>, search: string): (f: AppService.LeadFilters)
    ensures f.status.Some? <==> status != ""
    ensures f.source.Some? <==> source != ""
    ensures f.assignedAdminId.Some? <==> admin.Some? && admin.value != 0
    ensures f.search.Some? <==> search != ""
    ensures f.status.Some? ==> f.status.value == status
    ensures f.source.Some? ==> f.source.value == source
    ensures f.assignedAdminId.Some? ==> f.assignedAdminId == admin
    ensures f.search.Some? ==> f.search.value == search
  {
    AppService.LeadFilters(
      if status != "" then Some(status) else None,
      if source != "" then Some(source) else None,
      if admin.Some? && admin.value != 0 then admin else None,
      if search != "" then Some(search) else None)
  }

  /** The service sends exactly the keys the page put in: the query of the
      filter object equals the query of the raw filter values, and it is
      empty exactly when every filter is empty. */
  lemma FilterObjectQuery(status: string, source: string, admin: Option<int>, search: string)
    ensures AppService.LeadQuery(FilterObject(status, source, admin, search))
            == AppService.LeadQuery(AppService.LeadFilters(Some(status), Some(source), admin, Some(search)))
    ensures AppService.LeadQuery(FilterObject(status, source, admin, search)) == []
            <==> status == "" && source == "" && (admin.None? || admin.value == 0) && search == ""
  {
    var f := FilterObject(status, source, admin, search);
    AppService.LeadQuerySpec(f);
    if AppService.LeadQuery(f) == [] {
      assert ("status", OrElse(f.status, "")) !in AppService.LeadQuery(f);
      assert ("source", OrElse(f.source, "")) !in AppService.LeadQuery(f);
      assert ("assignedAdminId", AppService.NumText(f.assignedAdminId)) !in AppService.LeadQuery(f);
      assert ("search", OrElse(f.search, "")) !in AppService.LeadQuery(f);
    }
  }

  // ---------------------------------------------------------------------
  // The form

  const BlankForm := LeadForm("", "", "", "chat", "new", "normal", false, "", "")

  /** The form `openEditModal` fills from a lead: the required fields are
      copied and each missing optional text becomes `''`. */
  function FormOf(lead: Lead): (r: LeadForm)
    ensures r.name == lead.name && r.source == lead.source && r.status == lead.status
    ensures r.priority == lead.priority && r.hasTelegramContact == lead.hasTelegramContact
    ensures r.email == OrElse(lead.email, "") && r.phone == OrElse(lead.phone, "")
    ensures r.telegramUsername == OrElse(lead.telegramUsername, "") && r.description == OrElse(lead.description, "")
  {
    LeadForm(lead.name, OrElse(lead.email, ""), OrElse(lead.phone, ""), lead.source, lead.status, lead.priority,
             lead.hasTelegramContact, OrElse(lead.telegramUsername, ""), OrElse(lead.description, ""))
  }

  // ---------------------------------------------------------------------
  // The page

  class LeadsPageState {
    var leads: seq<Lead>
    var selectedLead: Option<Lead>
    var isLoading: bool
    var filterStatus: string
    var filterSource: string
    var filterAdmin: Option<int>
    var searchQuery: string
    var showLeadModal: bool
    var editingLead: Option<Lead>
    var leadForm: LeadForm

    constructor ()
      ensures leads == [] && selectedLead == None && !isLoading
      ensures filterStatus == "" && filterSource == "" && filterAdmin == None && searchQuery == ""
      ensures !showLeadModal && editingLead == None && leadForm == BlankForm
    {
      leads, selectedLead, isLoading := [], None, false;
      filterStatus, filterSource, filterAdmin, searchQuery := "", "", None, "";
      showLeadModal, editingLead, leadForm := false, None, BlankForm;
    }

    /** `loadLeads` up to the request: the page shows its loading state and
        asks for the leads with the current filters. */
    method LoadLeads() returns (filters: AppService.LeadFilters)
      modifies this
      ensures filters == FilterObject(filterStatus, filterSource, filterAdmin, searchQuery)
      ensures isLoading
      ensures leads == old(leads) && selectedLead == old(selectedLead)
      ensures filterStatus == old(filterStatus) && filterSource == old(filterSource)
      ensures filterAdmin == old(filterAdmin) && searchQuery == old(searchQuery)
      ensures showLeadModal == old(showLeadModal) && editingLead == old(editingLead) && leadForm == old(leadForm)
    {
      isLoading := true;
      filters := AppService.LeadFilters(None, None, None, None);
      if filterStatus != "" {
        filters := filters.(status := Some(filterStatus));
      }
      if filterSource != "" {
        filters := filters.(source := Some(filterSource));
      }
      if filterAdmin.Some? && filterAdmin.value != 0 {
        filters := filters.(assignedAdminId := filterAdmin);
      }
      if searchQuery != "" {
        filters := filters.(search := Some(searchQuery));
      }
    }

    /** The leads arrived, or the request failed (`leads` is `None`). */
    method OnLeads(result: Option<seq<Lead>>)
      modifies this
      ensures !isLoading
      ensures leads == (if result.Some? then result.value else old(leads))
      ensures selectedLead == old(selectedLead)
      ensures filterStatus == old(filterStatus) && filterSource == old(filterSource)
      ensures filterAdmin == old(filterAdmin) && searchQuery == old(searchQuery)
      ensures showLeadModal == old(showLeadModal) && editingLead == old(editingLead) && leadForm == old(leadForm)
    {
      if result.Some? {
        leads := result.value;
      }
      isLoading := false;
    }

    /** `clearFilters`: the four filters are reset and the leads reloaded,
        so the request carries no filter at all. */
    method ClearFilters() returns (filters: AppService.LeadFilters)
      modifies this
      ensures filterStatus == "" && filterSource == "" && filterAdmin == None && searchQuery == ""
      ensures filters == AppService.LeadFilters(None, None, None, None)
      ensures AppService.LeadQuery(filters) == []
      ensures isLoading
      ensures leads == old(leads) && selectedLead == old(selectedLead)
      ensures showLeadModal == old(showLeadModal) && editingLead == old(editingLead) && leadForm == old(leadForm)
    {
      filterStatus, filterSource, filterAdmin, searchQuery := "", "", None, "";
      filters := LoadLeads();
      FilterObjectQuery("", "", None, "");
    }

    /** `selectLead`: the lead is selected; its chat is fetched when it has
        a chat session. */
    method SelectLead(lead: Lead) returns (fetchChat: Option<string>)
      modifies this
      ensures selectedLead == Some(lead)
      ensures fetchChat == (if Present(lead.chatSessionId) then lead.chatSessionId else None)
      ensures leads == old(leads) && isLoading == old(isLoading)
      ensures filterStatus == old(filterStatus) && filterSource == old(filterSource)
      ensures filterAdmin == old(filterAdmin) && searchQuery == old(searchQuery)
      ensures showLeadModal == old(showLeadModal) && editingLead == old(editingLead) && leadForm == old(leadForm)
    {
      selectedLead := Some(lead);
      fetchChat := if Present(lead.chatSessionId) then lead.chatSessionId else None;
    }

    /** `openCreateModal`: nothing is being edited and the form is blank. */
    method OpenCreateModal()
      modifies this
      ensures editingLead == None && leadForm == BlankForm && showLeadModal
      ensures leads == old(leads) && selectedLead == old(selectedLead) && isLoading == old(isLoading)
      ensures filterStatus == old(filterStatus) && filterSource == old(filterSource)
      ensures filterAdmin == old(filterAdmin) && searchQuery == old(searchQuery)
    {
      editingLead := None;
      leadForm := BlankForm;
      showLeadModal := true;
    }

    /** `openEditModal`: the lead is being edited and the form holds its
        fields. */
    method OpenEditModal(lead: Lead)
      modifies this
      ensures editingLead == Some(lead) && leadForm == FormOf(lead) && showLeadModal
      ensures leads == old(leads) && selectedLead == old(selectedLead) && isLoading == old(isLoading)
      ensures filterStatus == old(filterStatus) && filterSource == old(filterSource)
      ensures filterAdmin == old(filterAdmin) && searchQuery == old(searchQuery)
    {
      editingLead := Some(lead);
      leadForm := FormOf(lead);
      showLeadModal := true;
    }

    /** `saveLead`: a copy of the form goes to the lead being edited, or
        creates a new lead. */
    method SaveLead() returns (request: SaveRequest)
      ensures editingLead.Some? ==> request == UpdateLead(editingLead.value.id, leadForm)
      ensures editingLead.None? ==> request == CreateLead(leadForm)
    {
      if editingLead.Some? {
        request := UpdateLead(editingLead.value.id, leadForm);
      } else {
        request := CreateLead(leadForm);
      }
    }

    /** The deletion of `lead` succeeded: the leads are reloaded, and the
        selection is cleared only when it was that lead. */
    method OnLeadDeleted(lead: Lead) returns (filters: AppService.LeadFilters)
      modifies this
      ensures old(selectedLead).Some? && old(selectedLead).value.id == lead.id ==> selectedLead == None
      ensures !(old(selectedLead).Some? && old(selectedLead).value.id == lead.id) ==> selectedLead == old(selectedLead)
      ensures filters == FilterObject(filterStatus, filterSource, filterAdmin, searchQuery) && isLoading
      ensures leads == old(leads)
      ensures filterStatus == old(filterStatus) && filterSource == old(filterSource)
      ensures filterAdmin == old(filterAdmin) && searchQuery == old(searchQuery)
      ensures showLeadModal == old(showLeadModal) && editingLead == old(editingLead) && leadForm == old(leadForm)
    {
      filters := LoadLeads();
      if selectedLead.Some? && selectedLead.value.id == lead.id {
        selectedLead := None;
      }
    }
  }
}

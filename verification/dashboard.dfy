/** The admin dashboard: unassigned leads visible to the admin, cars the
    admin added in the last week, chat sessions waiting for an answer, and
    the change detection that highlights the panel when a count moves. */
module Dashboard {
  import opened Js

  /** The admin's permission object; each flag may be missing. */
  datatype Permissions = Permissions(canManageLeads: Option<bool>, canViewLeads: Option<bool>,
                                     canAddCars: Option<bool>, canViewCars: Option<bool>,
                                     isLeadManager: Option<bool>)

  /** The signed-in admin as the auth endpoint returns it.  A `projectId`
      counts as set when it is a non-empty string. */
  datatype Admin = Admin(id: int, isSuper: bool, projectId: Option<string>, permissions: Option<Permissions>)

  datatype Lead = Lead(id: int, assignedAdminId: Option<int>, projectId: Option<string>)

  /** `createdAt` is a timestamp in milliseconds; `None` stands for a value
      that does not parse as a date. */
  datatype Car = Car(id: int, createdAt: Option<int>)

  datatype Session = Session(sessionId: string, projectId: Option<string>)

  datatype Message = Message(senderType: string, isRead: bool)

  /** What fetching a session's messages gave: an error, or a body that may
      be null. */
  datatype MessagesFetch = FetchFailed | Fetched(messages: Option<seq<Message>>)

  /** A session with its `unreadCount` spread in. */
  datatype SessionWithUnread = SessionWithUnread(session: Session, unreadCount: nat)

  datatype Flags = Flags(canManageLeads: bool, canViewLeads: bool, canAddCars: bool, canViewCars: bool)

  datatype DashboardData = DashboardData(
    permissions: Flags,
    unassignedLeadsCount: nat,
    unassignedLeads: seq<Lead>,
    carsAddedThisWeek: nat,
    chatsAwaitingResponse: nat,
    chatSessions: seq<SessionWithUnread>,
    lastUpdateTime: int)

  const DayMs := 24 * 60 * 60 * 1000
  /** How many leads and sessions the panel lists. */
  const Shown := 5

  // ---------------------------------------------------------------------
  // Truthiness of the optional fields

  /** `admin.projectId` is truthy. */
  predicate HasProject(a: Admin)
  {
    a.projectId.Some? && a.projectId.value != ""
  }

  /** `x || false` on an optional flag. */
  predicate IsSet(f: Option<bool>)
  {
    f == Some(true)
  }

  /** `admin.permissions?.isLeadManager` is truthy. */
  predicate IsLeadManager(a: Admin)
  {
    a.permissions.Some? && IsSet(a.permissions.value.isLeadManager)
  }

  // ---------------------------------------------------------------------
  // Unassigned leads

  /** `!lead.assignedAdminId`: no admin, or the falsy id 0. */
  predicate Unassigned(l: Lead)
  {
    l.assignedAdminId.None? || l.assignedAdminId == Some(0)
  }

  /** Whether the list is narrowed to the admin's project. */
  predicate ProjectBound(a: Admin)
  {
    !IsLeadManager(a) && HasProject(a)
  }

  function InProject(a: Admin): Lead -> bool
  {
    (l: Lead) => l.projectId == a.projectId
  }

  function UnassignedLeads(a: Admin, leads: seq<Lead>): seq<Lead>
  {
    var unassigned := Filter(Unassigned, leads);
    if ProjectBound(a) then Filter(InProject(a), unassigned) else unassigned
  }

  /** The leads the panel counts, as one test. */
  function Listed(a: Admin): Lead -> bool
  {
    (l: Lead) => Unassigned(l) && (ProjectBound(a) ==> l.projectId == a.projectId)
  }

  /** The two filters in turn are one filter: a lead is listed iff it has
      no admin and, for an admin bound to a project, belongs to that
      project; the listed leads keep their order. */
  lemma UnassignedLeadsSpec(a: Admin, leads: seq<Lead>)
    ensures UnassignedLeads(a, leads) == Filter(Listed(a), leads)
  {
    var unassigned := Filter(Unassigned, leads);
    if ProjectBound(a) {
      FilterCongruent(InProject(a), Listed(a), unassigned);
      FilterOfFilter(Listed(a), Unassigned, leads);
    } else {
      FilterCongruent(Unassigned, Listed(a), leads);
    }
  }

  // ---------------------------------------------------------------------
  // Cars of the week

  /** `new Date(car.createdAt) >= weekAgo`; an unparsable date compares
      false. */
  function AddedSince(weekAgo: int): Car -> bool
  {
    (c: Car) => c.createdAt.Some? && c.createdAt.value >= weekAgo
  }

  /** `weekAgo` is seven days before `now`. */
  function CarsAddedThisWeek(cars: seq<Car>, now: int): nat
  {
    |Filter(AddedSince(now - 7 * DayMs), cars)|
  }

  /** A car counts iff it was created at or after seven days before `now`,
      and cars with unparsable dates never count. */
  lemma CarsAddedThisWeekSpec(cars: seq<Car>, now: int)
    ensures CarsAddedThisWeek(cars, now) <= |cars|
    ensures forall c :: c in Filter(AddedSince(now - 7 * DayMs), cars) <==>
              c in cars && c.createdAt.Some? && c.createdAt.value >= now - 7 * DayMs
  {
    var p := AddedSince(now - 7 * DayMs);
    forall c | c in cars && c.createdAt.Some? && c.createdAt.value >= now - 7 * DayMs
      ensures c in Filter(p, cars)
    {
      var i :| 0 <= i < |cars| && cars[i] == c;
      assert p(cars[i]);
    }
  }

  // ---------------------------------------------------------------------
  // Chats awaiting a response

  /** The session filter: dropped only when the admin is not super, has a
      project, and the session's project differs. */
  function SessionVisible(a: Admin): Session -> bool
  {
    (s: Session) => !(!a.isSuper && HasProject(a) && s.projectId != a.projectId)
  }

  predicate UnreadFromClient(m: Message)
  {
    m.senderType == "client" && !m.isRead
  }

  /** `messages?.filter(...).length || 0`, or 0 when the fetch failed. */
  function UnreadCount(f: MessagesFetch): (r: nat)
    ensures f.FetchFailed? || f.messages.None? ==> r == 0
    ensures f.Fetched? && f.messages.Some? ==> r <= |f.messages.value|
  {
    match f
    case FetchFailed => 0
    case Fetched(None) => 0
    case Fetched(Some(ms)) => |Filter(UnreadFromClient, ms)|
  }

  /** Each message counted is an unread one from the client, and every
      such message is counted. */
  lemma UnreadCountSpec(ms: seq<Message>)
    ensures UnreadCount(Fetched(Some(ms))) == |Filter(UnreadFromClient, ms)|
    ensures UnreadCount(Fetched(Some(ms))) == 0 <==> forall i :: 0 <= i < |ms| ==> !UnreadFromClient(ms[i])
  {
    if forall i :: 0 <= i < |ms| ==> !UnreadFromClient(ms[i]) {
      FilterNone(UnreadFromClient, ms);
    }
  }

  /** The sessions with their unread counts; `fetch` gives the result of
      asking for a session's messages. */
  function WithUnread(sessions: seq<Session>, fetch: string -> MessagesFetch): (r: seq<SessionWithUnread>)
    ensures |r| == |sessions|
    ensures forall i :: 0 <= i < |r| ==> r[i].session == sessions[i] && r[i].unreadCount == UnreadCount(fetch(sessions[i].sessionId))
  {
    seq(|sessions|, i requires 0 <= i < |sessions| => SessionWithUnread(sessions[i], UnreadCount(fetch(sessions[i].sessionId))))
  }

  predicate Awaiting(s: SessionWithUnread)
  {
    s.unreadCount > 0
  }

  function ChatsAwaitingResponse(a: Admin, sessions: seq<Session>, fetch: string -> MessagesFetch): seq<SessionWithUnread>
  {
    Filter(Awaiting, WithUnread(Filter(SessionVisible(a), sessions), fetch))
  }

  /** A session is listed iff the admin may see it and it has at least one
      unread client message; a failed fetch keeps a session off the list. */
  lemma ChatsAwaitingSpec(a: Admin, sessions: seq<Session>, fetch: string -> MessagesFetch)
    ensures forall w: SessionWithUnread :: w in ChatsAwaitingResponse(a, sessions, fetch) <==>
              w.session in sessions && SessionVisible(a)(w.session)
              && w.unreadCount == UnreadCount(fetch(w.session.sessionId)) && w.unreadCount > 0
  {
    var visible := Filter(SessionVisible(a), sessions);
    var ws := WithUnread(visible, fetch);
    forall w | w in ChatsAwaitingResponse(a, sessions, fetch)
      ensures w.session in sessions && SessionVisible(a)(w.session)
      ensures w.unreadCount == UnreadCount(fetch(w.session.sessionId)) && w.unreadCount > 0
    {
      var i :| 0 <= i < |ws| && ws[i] == w;
      assert w.session == visible[i];
    }
    forall w: SessionWithUnread | w.session in sessions && SessionVisible(a)(w.session)
               && w.unreadCount == UnreadCount(fetch(w.session.sessionId)) && w.unreadCount > 0
      ensures w in ChatsAwaitingResponse(a, sessions, fetch)
    {
      var j :| 0 <= j < |sessions| && sessions[j] == w.session;
      assert w.session in visible;
      var i :| 0 <= i < |visible| && visible[i] == w.session;
      assert ws[i] == w;
    }
  }

  // ---------------------------------------------------------------------
  // The panel's data

  /** Each flag is the admin's own when set, false otherwise. */
  function FlagsOf(a: Admin): (r: Flags)
    ensures a.permissions.None? ==> r == Flags(false, false, false, false)
    ensures a.permissions.Some? ==>
              (r.canManageLeads <==> a.permissions.value.canManageLeads == Some(true))
              && (r.canViewLeads <==> a.permissions.value.canViewLeads == Some(true))
              && (r.canAddCars <==> a.permissions.value.canAddCars == Some(true))
              && (r.canViewCars <==> a.permissions.value.canViewCars == Some(true))
  {
    match a.permissions
    case None => Flags(false, false, false, false)
    case Some(p) => Flags(IsSet(p.canManageLeads), IsSet(p.canViewLeads), IsSet(p.canAddCars), IsSet(p.canViewCars))
  }

  /** `xs.slice(0, 5)`. */
  function FirstShown<T>(xs: seq<T>): (r: seq<T>)
    ensures |r| == Min(Shown, |xs|) && r <= xs
  {
    xs[..Min(Shown, |xs|)]
  }

  /** The `.then` step: the counts are taken from the full lists, and only
      the first five of each list are kept for display. */
  function BuildData(a: Admin, unassigned: seq<Lead>, carsCount: nat, awaiting: seq<SessionWithUnread>, now: int): (d: DashboardData)
    ensures d.unassignedLeadsCount == |unassigned| && d.chatsAwaitingResponse == |awaiting|
    ensures d.carsAddedThisWeek == carsCount && d.permissions == FlagsOf(a)
    ensures d.unassignedLeads <= unassigned && |d.unassignedLeads| == Min(5, |unassigned|)
    ensures d.chatSessions <= awaiting && |d.chatSessions| == Min(5, |awaiting|)
    ensures d.lastUpdateTime == now
  {
    DashboardData(FlagsOf(a), |unassigned|, FirstShown(unassigned), carsCount, |awaiting|, FirstShown(awaiting), now)
  }

  // ---------------------------------------------------------------------
  // Change detection

  /** `generateDataHash`: the three counts joined by `-`. */
  function DataHash(d: DashboardData): string
  {
    NatToString(d.unassignedLeadsCount) + "-" + NatToString(d.carsAddedThisWeek) + "-" + NatToString(d.chatsAwaitingResponse)
  }

  lemma NoDash(n: nat)
    ensures '-' !in NatToString(n)
  {
  }

  /** The hash splits back into the three numbers. */
  lemma HashPieces(d: DashboardData)
    ensures Split(DataHash(d), '-') ==
              [NatToString(d.unassignedLeadsCount), NatToString(d.carsAddedThisWeek), NatToString(d.chatsAwaitingResponse)]
  {
    var a, b, c := NatToString(d.unassignedLeadsCount), NatToString(d.carsAddedThisWeek), NatToString(d.chatsAwaitingResponse);
    NoDash(d.unassignedLeadsCount);
    NoDash(d.carsAddedThisWeek);
    NoDash(d.chatsAwaitingResponse);
    SplitNoSeparator(c, '-');
    SplitAtSeparator(b, '-', c);
    SplitAtSeparator(a, '-', b + ['-'] + c);
    assert DataHash(d) == a + ['-'] + (b + ['-'] + c);
  }

  /** Two panels get the same hash exactly when their three counts agree:
      the hash depends on nothing else, and any change of a count changes
      it. */
  lemma HashIffCounts(d: DashboardData, e: DashboardData)
    ensures DataHash(d) == DataHash(e) <==>
              d.unassignedLeadsCount == e.unassignedLeadsCount
              && d.carsAddedThisWeek == e.carsAddedThisWeek
              && d.chatsAwaitingResponse == e.chatsAwaitingResponse
  {
    if DataHash(d) == DataHash(e) {
      HashPieces(d);
      HashPieces(e);
      NatToStringInjective(d.unassignedLeadsCount, e.unassignedLeadsCount);
      NatToStringInjective(d.carsAddedThisWeek, e.carsAddedThisWeek);
      NatToStringInjective(d.chatsAwaitingResponse, e.chatsAwaitingResponse);
    }
  }

  /** A hash is never empty, so once a panel has loaded the next load is
      compared with it. */
  lemma HashNonEmpty(d: DashboardData)
    ensures DataHash(d) != ""
  {
  }

  // ---------------------------------------------------------------------
  // The page

  class DashboardPage {
    var admin: Option<Admin>
    var dashboardData: Option<DashboardData>
    var isLoading: bool
    var hasNewData: bool
    var lastDataHash: string

    constructor ()
      ensures admin == None && dashboardData == None && isLoading && !hasNewData && lastDataHash == ""
    {
      admin, dashboardData := None, None;
      isLoading, hasNewData, lastDataHash := true, false, "";
    }

    /** `loadAdmin` succeeded: the admin is stored and the data load
        starts. */
    method OnAdmin(a: Admin)
      modifies this
      ensures admin == Some(a) && isLoading
      ensures dashboardData == old(dashboardData) && hasNewData == old(hasNewData) && lastDataHash == old(lastDataHash)
    {
      admin := Some(a);
      var started := LoadDashboardData();
    }

    /** `loadDashboardData` up to the requests: nothing happens without an
        admin; otherwise the page shows its loading state. */
    method LoadDashboardData() returns (started: bool)
      modifies this
      ensures started <==> admin.Some?
      ensures isLoading == (old(isLoading) || started)
      ensures admin == old(admin) && dashboardData == old(dashboardData)
      ensures hasNewData == old(hasNewData) && lastDataHash == old(lastDataHash)
    {
      if admin.None? {
        return false;
      }
      isLoading := true;
      started := true;
    }

    /** All three requests answered: the panel is rebuilt for the admin
        the load started with.  The highlight is raised only when an
        earlier load left a hash and the new one differs; the new hash is
        always kept. */
    method OnDataLoaded(a: Admin, leads: seq<Lead>, cars: seq<Car>, sessions: seq<Session>,
                        fetch: string -> MessagesFetch, now: int)
      modifies this
      ensures dashboardData == Some(BuildData(a, UnassignedLeads(a, leads), CarsAddedThisWeek(cars, now),
                                              ChatsAwaitingResponse(a, sessions, fetch), now))
      ensures lastDataHash == DataHash(dashboardData.value)
      ensures hasNewData == (old(hasNewData) || (old(lastDataHash) != "" && old(lastDataHash) != lastDataHash))
      ensures !isLoading && admin == old(admin)
    {
      var unassigned := UnassignedLeads(a, leads);
      var carsCount := CarsAddedThisWeek(cars, now);
      var awaiting := ChatsAwaitingResponse(a, sessions, fetch);
      var data := BuildData(a, unassigned, carsCount, awaiting, now);
      var dataHash := DataHash(data);
      if lastDataHash != "" && lastDataHash != dataHash {
        hasNewData := true;
      }
      lastDataHash := dataHash;
      dashboardData := Some(data);
      isLoading := false;
    }

    /** One of the requests failed: only the loading state ends. */
    method OnDataError()
      modifies this
      ensures !isLoading
      ensures admin == old(admin) && dashboardData == old(dashboardData)
      ensures hasNewData == old(hasNewData) && lastDataHash == old(lastDataHash)
    {
      isLoading := false;
    }

    /** The three-second highlight is over. */
    method ClearHighlight()
      modifies this
      ensures !hasNewData
      ensures admin == old(admin) && dashboardData == old(dashboardData)
      ensures isLoading == old(isLoading) && lastDataHash == old(lastDataHash)
    {
      hasNewData := false;
    }
  }

  /** The first load never raises the highlight, and a later load raises
      it exactly when one of the three counts changed. */
  lemma HighlightOnCountChange(prev: DashboardData, next: DashboardData)
    ensures (DataHash(prev) != "" && DataHash(prev) != DataHash(next)) <==>
              (prev.unassignedLeadsCount != next.unassignedLeadsCount
               || prev.carsAddedThisWeek != next.carsAddedThisWeek
               || prev.chatsAwaitingResponse != next.chatsAwaitingResponse)
  {
    HashIffCounts(prev, next);
  }
}

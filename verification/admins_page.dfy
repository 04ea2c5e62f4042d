/** The admins page: the three counters over the loaded list and the rule
    for reloading that list after a modal closes. */
module AdminsPage {
  import opened Js

  /** `v.key` on a JSON value: an object's field, or `undefined` for a
      missing key and for a value that is not an object. */
  function Prop(v: Json, key: string): Json
  {
    if v.JObj? && key in v.fields then v.fields[key] else JNull
  }

  predicate Removed(admin: Json)
  {
    Truthy(Prop(admin, "deletedAt"))
  }

  predicate Active(admin: Json)
  {
    !Removed(admin)
  }

  predicate Super(admin: Json)
  {
    Truthy(Prop(admin, "isSuper"))
  }

  /** The list the counters see: the items when `admins` is an array, and
      nothing otherwise. */
  function Items(admins: Json): seq<Json>
  {
    if admins.JArr? then admins.items else []
  }

  /** `activeAdminsCount`: admins without a deletion date; 0 when the list is
      not an array. */
  function ActiveAdminsCount(admins: Json): (r: nat)
    ensures !admins.JArr? ==> r == 0
    ensures r <= |Items(admins)|
  {
    if !admins.JArr? then 0 else |Filter(Active, admins.items)|
  }

  /** `removedAdminsCount`: admins with a deletion date; 0 when the list is
      not an array. */
  function RemovedAdminsCount(admins: Json): (r: nat)
    ensures !admins.JArr? ==> r == 0
    ensures r <= |Items(admins)|
  {
    if !admins.JArr? then 0 else |Filter(Removed, admins.items)|
  }

  /** `superAdminsCount`: super admins, removed ones included; 0 when the
      list is not an array. */
  function SuperAdminsCount(admins: Json): (r: nat)
    ensures !admins.JArr? ==> r == 0
    ensures r <= |Items(admins)|
  {
    if !admins.JArr? then 0 else |Filter(Super, admins.items)|
  }

  predicate ActiveSuper(admin: Json)
  {
    Super(admin) && Active(admin)
  }

  predicate RemovedSuper(admin: Json)
  {
    Super(admin) && Removed(admin)
  }

  lemma {:induction false} ActiveRemovedSplit(s: seq<Json>)
    ensures |Filter(Active, s)| + |Filter(Removed, s)| == |s|
  {
    if s != [] {
      ActiveRemovedSplit(s[1..]);
    }
  }

  lemma {:induction false} SuperSplit(s: seq<Json>)
    ensures |Filter(Super, s)| == |Filter(ActiveSuper, s)| + |Filter(RemovedSuper, s)|
  {
    if s != [] {
      SuperSplit(s[1..]);
    }
  }

  /** Every admin is counted exactly once as active or removed. */
  lemma ActivePlusRemoved(admins: Json)
    ensures ActiveAdminsCount(admins) + RemovedAdminsCount(admins) == |Items(admins)|
  {
    ActiveRemovedSplit(Items(admins));
  }

  /** The super-admin count is the active super admins plus the removed
      ones, so removed super admins are included. */
  lemma SuperIncludesRemoved(admins: Json)
    ensures SuperAdminsCount(admins) == |Filter(ActiveSuper, Items(admins))| + |Filter(RemovedSuper, Items(admins))|
  {
    SuperSplit(Items(admins));
  }

  /** The page: the loaded list, and what closing a modal or deleting an
      admin leads to. */
  class AdminsPageState {
    var admins: Json

    constructor ()
      ensures admins == JNull
    {
      admins := JNull;
    }

    /** The list arrived. */
    method OnAdmins(list: Json)
      modifies this
      ensures admins == list
    {
      admins := list;
    }

    /** The management modal closed: the list is reloaded only when its
        result asks for it (`content?.result?.reload`). */
    method OnManagementModalHidden(result: Json) returns (reload: bool)
      ensures reload <==> result.JObj? && "reload" in result.fields && Truthy(result.fields["reload"])
    {
      reload := Truthy(Prop(result, "reload"));
    }

    /** The details modal closed: the list is always reloaded. */
    method OnDetailsModalHidden() returns (reload: bool)
      ensures reload
    {
      reload := true;
    }

    /** `deleteAdmin`: the id to delete when the user confirms, nothing
        otherwise; once a deletion answers, the list is reloaded, so a
        reload follows exactly the confirmed deletions. */
    method DeleteAdmin(id: int, confirmed: bool) returns (request: Option<int>, reload: bool)
      ensures request == (if confirmed then Some(id) else None)
      ensures reload <==> request.Some?
    {
      request := if confirmed then Some(id) else None;
      reload := confirmed;
    }
  }
}

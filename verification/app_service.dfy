/** The request-building logic of the console's REST client (app.service.ts):
    query strings for the car, lead and task listings, the rewriting of
    stored image paths into URLs, the image-upload form and the field the
    car update strips.  `apiUrl` is the configured API root. */
module AppService {
  import opened Js

  // ---------------------------------------------------------------------
  // Query strings

  /** A `URLSearchParams` holds its entries in insertion order. */
  type Query = seq<(string, string)>

  /** The keys of a query, in order. */
  function Keys(q: Query): (r: seq<string>)
    ensures |r| == |q| && forall i :: 0 <= i < |q| ==> r[i] == q[i].0
  {
    if q == [] then [] else [q[0].0] + Keys(q[1..])
  }

  /** One `key=value` piece. */
  function Piece(e: (string, string)): string
  {
    e.0 + "=" + e.1
  }

  function Pieces(q: Query): (r: seq<string>)
    ensures |r| == |q| && forall i :: 0 <= i < |q| ==> r[i] == Piece(q[i])
  {
    if q == [] then [] else [Piece(q[0])] + Pieces(q[1..])
  }

  /** `URLSearchParams.toString()` for entries that need no percent-encoding. */
  function Serialize(q: Query): string
  {
    Join(Pieces(q), "&")
  }

  /** The serialised query is empty exactly when there are no entries, which
      is what the builders' `if (queryParams.toString())` tests. */
  lemma SerializeEmpty(q: Query)
    ensures Serialize(q) == "" <==> q == []
  {
    if q != [] {
      var ps := Pieces(q);
      assert |Piece(q[0])| >= 1;
      if |ps| > 1 {
        assert Serialize(q) == ps[0] + "&" + Join(ps[1..], "&");
      }
    }
  }

  /** Entries whose keys and values contain neither `&` nor `=`. */
  predicate Plain(q: Query)
  {
    forall i :: 0 <= i < |q| ==> '&' !in q[i].0 && '=' !in q[i].0 && '&' !in q[i].1 && '=' !in q[i].1
  }

  /** Splitting a serialised query on `&` and each piece on `=` gives back
      the entries, in order: the query string lists exactly its entries. */
  lemma QueryRoundTrip(q: Query)
    requires q != [] && Plain(q)
    ensures |Split(Serialize(q), '&')| == |q|
    ensures forall i :: 0 <= i < |q| ==> Split(Split(Serialize(q), '&')[i], '=') == [q[i].0, q[i].1]
  {
    var ps := Pieces(q);
    forall i | 0 <= i < |ps| ensures '&' !in ps[i] {
      assert ps[i] == q[i].0 + "=" + q[i].1;
    }
    SplitJoin(ps, '&', "");
    assert [ '&' ] + "" == "&";
    var parts := Split(Serialize(q), '&');
    forall i | 0 <= i < |q| ensures Split(parts[i], '=') == [q[i].0, q[i].1] {
      assert parts[i] == ps[i] by {
        if i > 0 { assert "" + ps[i] == ps[i]; }
      }
      SplitAtSeparator(q[i].0, '=', q[i].1);
      assert ps[i] == q[i].0 + ['='] + q[i].1;
      SplitNoSeparator(q[i].1, '=');
    }
  }

  /** `base?query`, or `base` alone when the query string is empty. */
  function WithQuery(base: string, q: Query): string
  {
    var text := Serialize(q);
    if text != "" then base + "?" + text else base
  }

  /** No `?` is added exactly when there are no entries. */
  lemma WithQueryEmpty(base: string, q: Query)
    ensures WithQuery(base, q) == base <==> q == []
  {
    SerializeEmpty(q);
    if q != [] {
      assert |WithQuery(base, q)| > |base|;
    }
  }

  /** One conditional `append`. */
  function Param(present: bool, key: string, value: string): Query
  {
    if present then [(key, value)] else []
  }

  /** A numeric parameter is truthy when present and non-zero. */
  predicate NumTruthy(n: Option<int>)
  {
    n.Some? && n.value != 0
  }

  /** `params.limit.toString()` for a truthy limit. */
  function NumText(n: Option<int>): string
  {
    if n.Some? then IntToString(n.value) else ""
  }

  /** The keys of a query all come from `order` and appear in its order. */
  predicate InOrder(q: Query, order: seq<string>)
  {
    IsSubsequence(Keys(q), order)
  }

  // ---------------------------------------------------------------------
  // getCars

  /** The listing options `getCars` reads. */
  datatype CarParams = CarParams(limit: Option<int>, sortBy: Option<string>, sortOrder: Option<string>, random: Option<bool>)

  function CarQuery(p: CarParams): Query
  {
    Param(NumTruthy(p.limit), "limit", NumText(p.limit))
      + Param(Present(p.sortBy), "sortBy", OrElse(p.sortBy, ""))
      + Param(Present(p.sortOrder), "sortOrder", OrElse(p.sortOrder, ""))
      + Param(p.random == Some(true), "random", "true")
  }

  /** `getCars`: the query is built with one conditional append per
      option, and attached only when it is not empty. */
  method GetCarsUrl(apiUrl: string, params: Option<CarParams>) returns (url: string)
    ensures url == WithQuery(apiUrl + "/cars", if params.Some? then CarQuery(params.value) else [])
  {
    url := apiUrl + "/cars";
    if params.Some? {
      var p := params.value;
      var query: Query := [];
      if NumTruthy(p.limit) {
        query := query + [("limit", IntToString(p.limit.value))];
      }
      assert query == Param(NumTruthy(p.limit), "limit", NumText(p.limit));
      if Present(p.sortBy) {
        query := query + [("sortBy", p.sortBy.value)];
      }
      assert query == Param(NumTruthy(p.limit), "limit", NumText(p.limit))
        + Param(Present(p.sortBy), "sortBy", OrElse(p.sortBy, ""));
      if Present(p.sortOrder) {
        query := query + [("sortOrder", p.sortOrder.value)];
      }
      assert query == Param(NumTruthy(p.limit), "limit", NumText(p.limit))
        + Param(Present(p.sortBy), "sortBy", OrElse(p.sortBy, ""))
        + Param(Present(p.sortOrder), "sortOrder", OrElse(p.sortOrder, ""));
      if p.random == Some(true) {
        query := query + [("random", "true")];
      }
      assert query == CarQuery(p);
      var text := Serialize(query);
      if text != "" {
        url := url + "?" + text;
      }
    }
  }

  /** Each option is sent exactly when it is truthy (a limit of 0 is
      dropped), under its own key, in the order limit, sortBy, sortOrder,
      random; `random` is always sent as `true`. */
  lemma CarQuerySpec(p: CarParams)
    ensures var q := CarQuery(p);
            && InOrder(q, ["limit", "sortBy", "sortOrder", "random"])
            && (("limit", NumText(p.limit)) in q <==> NumTruthy(p.limit))
            && (("sortBy", OrElse(p.sortBy, "")) in q <==> Present(p.sortBy))
            && (("sortOrder", OrElse(p.sortOrder, "")) in q <==> Present(p.sortOrder))
            && (("random", "true") in q <==> p.random == Some(true))
            && |q| <= 4
  {
    FourSlots(NumTruthy(p.limit), "limit", NumText(p.limit),
              Present(p.sortBy), "sortBy", OrElse(p.sortBy, ""),
              Present(p.sortOrder), "sortOrder", OrElse(p.sortOrder, ""),
              p.random == Some(true), "random", "true");
  }

  /** Without options, or with only falsy ones, the URL has no `?`. */
  lemma CarsUrlPlain(apiUrl: string, p: CarParams)
    ensures WithQuery(apiUrl + "/cars", CarQuery(p)) == apiUrl + "/cars"
            <==> !NumTruthy(p.limit) && !Present(p.sortBy) && !Present(p.sortOrder) && p.random != Some(true)
  {
    WithQueryEmpty(apiUrl + "/cars", CarQuery(p));
  }

  lemma KeysAppend(a: Query, b: Query)
    ensures Keys(a + b) == Keys(a) + Keys(b)
  {
    var l, r := Keys(a + b), Keys(a) + Keys(b);
    assert |l| == |r|;
    forall i | 0 <= i < |l| ensures l[i] == r[i] {
      if i < |a| { assert (a + b)[i] == a[i]; } else { assert (a + b)[i] == b[i - |a|]; }
    }
  }

  /** An optional entry in front keeps the keys a subsequence of the order
      with its key in front. */
  lemma {:induction false} SlotInFront(present: bool, k: string, v: string, q: Query, order: seq<string>)
    requires InOrder(q, order)
    ensures InOrder(Param(present, k, v) + q, [k] + order)
  {
    var head := Param(present, k, v);
    KeysAppend(head, q);
    var o := [k] + order;
    assert o[1..] == order && o[0] == k;
    if present {
      var ks := Keys(head + q);
      assert ks == [k] + Keys(q);
      assert ks[0] == k && ks[1..] == Keys(q);
    } else {
      assert head + q == q;
      if Keys(q) != [] {
        assert IsSubsequence(Keys(q), o[1..]);
      }
    }
  }

  /** An entry is in a conditional append with another key never. */
  lemma OtherSlot(present: bool, k: string, v: string, e: (string, string))
    requires e.0 != k
    ensures e !in Param(present, k, v)
  {
  }

  /** Four optional entries with distinct keys, appended in a fixed order. */
  lemma FourSlots(pa: bool, ka: string, va: string, pb: bool, kb: string, vb: string,
                  pc: bool, kc: string, vc: string, pd: bool, kd: string, vd: string)
    requires ka != kb && ka != kc && ka != kd && kb != kc && kb != kd && kc != kd
    ensures var q := Param(pa, ka, va) + Param(pb, kb, vb) + Param(pc, kc, vc) + Param(pd, kd, vd);
            && InOrder(q, [ka, kb, kc, kd])
            && ((ka, va) in q <==> pa) && ((kb, vb) in q <==> pb)
            && ((kc, vc) in q <==> pc) && ((kd, vd) in q <==> pd)
            && |q| <= 4
  {
    var a, b, c, d := Param(pa, ka, va), Param(pb, kb, vb), Param(pc, kc, vc), Param(pd, kd, vd);
    FourSlotsOrder(a, b, c, d, pa, ka, va, pb, kb, vb, pc, kc, vc, pd, kd, vd);
    OtherSlot(pb, kb, vb, (ka, va)); OtherSlot(pc, kc, vc, (ka, va)); OtherSlot(pd, kd, vd, (ka, va));
    OtherSlot(pa, ka, va, (kb, vb)); OtherSlot(pc, kc, vc, (kb, vb)); OtherSlot(pd, kd, vd, (kb, vb));
    OtherSlot(pa, ka, va, (kc, vc)); OtherSlot(pb, kb, vb, (kc, vc)); OtherSlot(pd, kd, vd, (kc, vc));
    OtherSlot(pa, ka, va, (kd, vd)); OtherSlot(pb, kb, vb, (kd, vd)); OtherSlot(pc, kc, vc, (kd, vd));
  }

  lemma FourSlotsOrder(a: Query, b: Query, c: Query, d: Query,
                       pa: bool, ka: string, va: string, pb: bool, kb: string, vb: string,
                       pc: bool, kc: string, vc: string, pd: bool, kd: string, vd: string)
    requires a == Param(pa, ka, va) && b == Param(pb, kb, vb) && c == Param(pc, kc, vc) && d == Param(pd, kd, vd)
    ensures InOrder(a + b + c + d, [ka, kb, kc, kd])
  {
    ThreeSlotsOrder(b, c, d, pb, kb, vb, pc, kc, vc, pd, kd, vd);
    SlotInFront(pa, ka, va, b + (c + d), [kb, kc, kd]);
    assert [ka] + [kb, kc, kd] == [ka, kb, kc, kd];
    InOrderRegroup(a, b, c, d, [ka, kb, kc, kd]);
  }

  lemma InOrderRegroup(a: Query, b: Query, c: Query, d: Query, order: seq<string>)
    requires InOrder(a + (b + (c + d)), order)
    ensures InOrder(a + b + c + d, order)
  {
    assert a + (b + (c + d)) == a + b + c + d;
  }

  lemma ThreeSlotsOrder(b: Query, c: Query, d: Query,
                        pb: bool, kb: string, vb: string, pc: bool, kc: string, vc: string, pd: bool, kd: string, vd: string)
    requires b == Param(pb, kb, vb) && c == Param(pc, kc, vc) && d == Param(pd, kd, vd)
    ensures InOrder(b + (c + d), [kb, kc, kd])
  {
    TwoSlotsOrder(c, d, pc, kc, vc, pd, kd, vd);
    SlotInFront(pb, kb, vb, c + d, [kc, kd]);
    assert [kb] + [kc, kd] == [kb, kc, kd];
  }

  lemma TwoSlotsOrder(c: Query, d: Query, pc: bool, kc: string, vc: string, pd: bool, kd: string, vd: string)
    requires c == Param(pc, kc, vc) && d == Param(pd, kd, vd)
    ensures InOrder(c + d, [kc, kd])
  {
    assert InOrder([], []);
    SlotInFront(pd, kd, vd, [], []);
    assert d + [] == d && [kd] + [] == [kd];
    SlotInFront(pc, kc, vc, d, [kd]);
    assert [kc] + [kd] == [kc, kd];
  }

  // ---------------------------------------------------------------------
  // getLeads

  /** The lead-list filters. */
  datatype LeadFilters = LeadFilters(status: Option<string>, source: Option<string>, assignedAdminId: Option<int>, search: Option<string>)

  function LeadQuery(f: LeadFilters): Query
  {
    Param(Present(f.status), "status", OrElse(f.status, ""))
      + Param(Present(f.source), "source", OrElse(f.source, ""))
      + Param(NumTruthy(f.assignedAdminId), "assignedAdminId", NumText(f.assignedAdminId))
      + Param(Present(f.search), "search", OrElse(f.search, ""))
  }

  /** `getLeads`: the same rule as `getCars`, over the four filters. */
  method GetLeadsUrl(apiUrl: string, filters: Option<LeadFilters>) returns (url: string)
    ensures url == WithQuery(apiUrl + "/leads", if filters.Some? then LeadQuery(filters.value) else [])
  {
    url := apiUrl + "/leads";
    if filters.Some? {
      var f := filters.value;
      var query: Query := [];
      if Present(f.status) {
        query := query + [("status", f.status.value)];
      }
      assert query == Param(Present(f.status), "status", OrElse(f.status, ""));
      if Present(f.source) {
        query := query + [("source", f.source.value)];
      }
      assert query == Param(Present(f.status), "status", OrElse(f.status, ""))
        + Param(Present(f.source), "source", OrElse(f.source, ""));
      if NumTruthy(f.assignedAdminId) {
        query := query + [("assignedAdminId", IntToString(f.assignedAdminId.value))];
      }
      assert query == Param(Present(f.status), "status", OrElse(f.status, ""))
        + Param(Present(f.source), "source", OrElse(f.source, ""))
        + Param(NumTruthy(f.assignedAdminId), "assignedAdminId", NumText(f.assignedAdminId));
      if Present(f.search) {
        query := query + [("search", f.search.value)];
      }
      assert query == LeadQuery(f);
      var text := Serialize(query);
      if text != "" {
        url := url + "?" + text;
      }
    }
  }

  /** Each filter is sent exactly when it is truthy (admin id 0 is dropped),
      in the order status, source, assignedAdminId, search. */
  lemma LeadQuerySpec(f: LeadFilters)
    ensures var q := LeadQuery(f);
            && InOrder(q, ["status", "source", "assignedAdminId", "search"])
            && (("status", OrElse(f.status, "")) in q <==> Present(f.status))
            && (("source", OrElse(f.source, "")) in q <==> Present(f.source))
            && (("assignedAdminId", NumText(f.assignedAdminId)) in q <==> NumTruthy(f.assignedAdminId))
            && (("search", OrElse(f.search, "")) in q <==> Present(f.search))
  {
    FourSlots(Present(f.status), "status", OrElse(f.status, ""),
              Present(f.source), "source", OrElse(f.source, ""),
              NumTruthy(f.assignedAdminId), "assignedAdminId", NumText(f.assignedAdminId),
              Present(f.search), "search", OrElse(f.search, ""));
  }

  /** With no filters, or only falsy ones, the URL has no `?`. */
  lemma LeadsUrlPlain(apiUrl: string, f: LeadFilters)
    ensures WithQuery(apiUrl + "/leads", LeadQuery(f)) == apiUrl + "/leads"
            <==> !Present(f.status) && !Present(f.source) && !NumTruthy(f.assignedAdminId) && !Present(f.search)
  {
    WithQueryEmpty(apiUrl + "/leads", LeadQuery(f));
  }

  // ---------------------------------------------------------------------
  // getAdminTasks

  function BoolText(b: bool): string
  {
    if b then "true" else "false"
  }

  function TaskQuery(status: Option<string>, completed: Option<bool>): Query
  {
    Param(Present(status), "status", OrElse(status, ""))
      + Param(completed.Some?, "completed", if completed.Some? then BoolText(completed.value) else "")
  }

  /** `getAdminTasks`: `status` when non-empty, `completed` whenever it is
      given, `false` included. */
  method GetAdminTasksUrl(apiUrl: string, status: Option<string>, completed: Option<bool>) returns (url: string)
    ensures url == WithQuery(apiUrl + "/leads/tasks/my", TaskQuery(status, completed))
  {
    url := apiUrl + "/leads/tasks/my";
    var query: Query := [];
    if Present(status) {
      query := query + [("status", status.value)];
    }
    if completed.Some? {
      query := query + [("completed", BoolText(completed.value))];
    }
    var text := Serialize(query);
    if text != "" {
      url := url + "?" + text;
    }
  }

  /** `completed=false` is sent for `false`; the flag is absent only when it
      is not given; `status` is sent exactly when non-empty, first. */
  lemma TaskQuerySpec(status: Option<string>, completed: Option<bool>)
    ensures var q := TaskQuery(status, completed);
            && (completed == Some(false) ==> q[|q| - 1] == ("completed", "false"))
            && (completed == Some(true) ==> q[|q| - 1] == ("completed", "true"))
            && (completed.None? ==> forall i :: 0 <= i < |q| ==> q[i].0 != "completed")
            && (Present(status) ==> q[0] == ("status", status.value))
            && (!Present(status) ==> forall i :: 0 <= i < |q| ==> q[i].0 != "status")
  {
  }

  // ---------------------------------------------------------------------
  // getFileUrl

  const OldHost := "shop-ytb-client.onrender.com"
  const HttpOrigin := "http://" + OldHost
  const HttpsOrigin := "https://" + OldHost

  /** The first match of `/https?:\/\/shop-ytb-client\.onrender\.com/`
      removed; the text is unchanged when there is none. */
  function StripOldOrigin(s: string): (r: string)
    ensures |r| <= |s|
  {
    if StartsWith(s, HttpOrigin) then s[|HttpOrigin|..]
    else if StartsWith(s, HttpsOrigin) then s[|HttpsOrigin|..]
    else if s == [] then []
    else [s[0]] + StripOldOrigin(s[1..])
  }

  /** The pattern of `StripOldOrigin` matches at `i`. */
  predicate OriginAt(s: string, i: int)
  {
    OccursAt(s, HttpOrigin, i) || OccursAt(s, HttpsOrigin, i)
  }

  /** The length of the match at `i`; the two origins differ in their fifth
      character, so at most one of them matches there. */
  function OriginLen(s: string, i: int): (n: nat)
    requires OriginAt(s, i)
    ensures i + n <= |s|
  {
    if OccursAt(s, HttpOrigin, i) then |HttpOrigin| else |HttpsOrigin|
  }

  /** An occurrence in the tail is one place further on in the whole. */
  lemma OccursShift(s: string, pat: string, j: nat)
    requires s != []
    ensures OccursAt(s[1..], pat, j) <==> OccursAt(s, pat, j + 1)
  {
    if j + |pat| <= |s| - 1 {
      assert s[1..][j..j + |pat|] == s[j + 1..j + 1 + |pat|];
    }
  }

  /** A match in the tail is a match one place further on in the whole. */
  lemma OriginShift(s: string, j: nat)
    requires s != []
    ensures OriginAt(s[1..], j) <==> OriginAt(s, j + 1)
    ensures OriginAt(s, j + 1) ==> OriginLen(s[1..], j) == OriginLen(s, j + 1)
  {
    OccursShift(s, HttpOrigin, j);
    OccursShift(s, HttpsOrigin, j);
  }

  /** A match at the start is what is removed. */
  lemma StripAtStart(s: string)
    requires OriginAt(s, 0)
    ensures StripOldOrigin(s) == s[OriginLen(s, 0)..]
  {
    if !OccursAt(s, HttpOrigin, 0) {
      assert HttpOrigin[4] == ':' && HttpsOrigin[4] == 's';
      assert s[..|HttpsOrigin|] == HttpsOrigin;
      assert !StartsWith(s, HttpOrigin) by {
        assert s[4] == 's';
      }
    }
  }

  /** Without a match at the start, the first character is kept. */
  lemma StripStep(s: string)
    requires s != [] && !OriginAt(s, 0)
    ensures StripOldOrigin(s) == [s[0]] + StripOldOrigin(s[1..])
  {
    assert StartsWith(s, HttpOrigin) ==> OccursAt(s, HttpOrigin, 0);
    assert StartsWith(s, HttpsOrigin) ==> OccursAt(s, HttpsOrigin, 0);
  }

  /** No match before `i` in the whole means none before `i - 1` in the
      tail. */
  lemma NoOriginBeforeShift(s: string, i: nat)
    requires 0 < i <= |s|
    requires forall j :: 0 <= j < i ==> !OriginAt(s, j)
    ensures forall j :: 0 <= j < i - 1 ==> !OriginAt(s[1..], j)
  {
    forall j | 0 <= j < i - 1 ensures !OriginAt(s[1..], j) {
      OriginShift(s, j);
    }
  }

  /** Cutting `n` characters at `i > 0` commutes with keeping the first. */
  lemma CutShift(s: string, i: nat, n: nat)
    requires 0 < i && i + n <= |s|
    ensures s[..i] + s[i + n..] == [s[0]] + (s[1..][..i - 1] + s[1..][i - 1 + n..])
  {
    assert s[..i] == [s[0]] + s[1..][..i - 1];
    assert s[i + n..] == s[1..][i - 1 + n..];
  }

  /** Stripping removes exactly the first match, wherever it is. */
  lemma {:induction false} StripFirstOrigin(s: string, i: nat)
    requires OriginAt(s, i)
    requires forall j :: 0 <= j < i ==> !OriginAt(s, j)
    ensures StripOldOrigin(s) == s[..i] + s[i + OriginLen(s, i)..]
  {
    if i == 0 {
      StripAtStart(s);
    } else {
      StripStep(s);
      OriginShift(s, i - 1);
      NoOriginBeforeShift(s, i);
      StripFirstOrigin(s[1..], i - 1);
      CutShift(s, i, OriginLen(s, i));
    }
  }

  /** Without a match, stripping changes nothing. */
  lemma {:induction false} StripNoOrigin(s: string)
    requires forall j :: 0 <= j <= |s| ==> !OriginAt(s, j)
    ensures StripOldOrigin(s) == s
  {
    if s != [] {
      StripStep(s);
      forall j | 0 <= j <= |s[1..]| ensures !OriginAt(s[1..], j) {
        OriginShift(s, j);
      }
      StripNoOrigin(s[1..]);
    }
  }

  /** A leading `/` added when missing. */
  function WithLeadingSlash(p: string): (r: string)
    ensures StartsWith(r, "/")
    ensures r == p || r == "/" + p
    ensures r == p <==> StartsWith(p, "/")
  {
    if StartsWith(p, "/") then p else "/" + p
  }

  /** `getFileUrl(image)`: `None` when the image has no path, where the
      source's `image.path.startsWith` throws. */
  function FileUrl(apiUrl: string, path: Option<string>): Option<string>
  {
    if Present(path) && Contains(path.value, OldHost) then
      Some(apiUrl + WithLeadingSlash(StripOldOrigin(path.value)))
    else if path.None? then None
    else if StartsWith(path.value, "http") then Some(path.value)
    else
      var clean := if StartsWith(path.value, "images/") then ReplaceFirst(path.value, "images/", "") else path.value;
      Some(apiUrl + WithLeadingSlash(clean))
  }

  /** A path on the old host loses its origin and is served from the API. */
  lemma FileUrlOldHost(apiUrl: string, scheme: string, rest: string)
    requires scheme == "http://" || scheme == "https://"
    ensures FileUrl(apiUrl, Some(scheme + OldHost + rest)) == Some(apiUrl + WithLeadingSlash(rest))
  {
    var p := scheme + OldHost + rest;
    assert p[..|scheme + OldHost|] == scheme + OldHost;
    assert p[|scheme + OldHost|..] == rest;
    assert OccursAt(p, OldHost, |scheme|) by {
      assert p[|scheme|..|scheme| + |OldHost|] == OldHost;
    }
    if scheme == "https://" {
      assert p[4] == 's';
      assert !StartsWith(p, "http://" + OldHost) by {
        assert ("http://" + OldHost)[4] == ':';
      }
    }
  }

  /** An old-host origin anywhere in the path is cut out (only the first
      one), and the rest is served from the API. */
  lemma FileUrlOriginInside(apiUrl: string, path: string, i: nat)
    requires OriginAt(path, i)
    requires forall j :: 0 <= j < i ==> !OriginAt(path, j)
    ensures FileUrl(apiUrl, Some(path)) == Some(apiUrl + WithLeadingSlash(path[..i] + path[i + OriginLen(path, i)..]))
  {
    var k := i + OriginLen(path, i) - |OldHost|;
    assert path[k..k + |OldHost|] == OldHost by {
      if OccursAt(path, HttpOrigin, i) {
        assert path[i..i + |HttpOrigin|][7..] == OldHost;
      } else {
        assert path[i..i + |HttpsOrigin|][8..] == OldHost;
      }
    }
    assert OccursAt(path, OldHost, k);
    StripFirstOrigin(path, i);
  }

  /** The old host named without an `http(s)://` origin: the path is still
      served from the API, unstripped, even when it starts with `http`. */
  lemma FileUrlHostWithoutOrigin(apiUrl: string, path: string)
    requires Contains(path, OldHost)
    requires forall j :: 0 <= j <= |path| ==> !OriginAt(path, j)
    ensures FileUrl(apiUrl, Some(path)) == Some(apiUrl + WithLeadingSlash(path))
  {
    StripNoOrigin(path);
  }

  /** Whatever the path, an old-host path or a relative one is served from
      the API root with a `/` after it. */
  lemma FileUrlUnderApi(apiUrl: string, path: string)
    requires !StartsWith(path, "http") || Contains(path, OldHost)
    ensures FileUrl(apiUrl, Some(path)).Some?
    ensures StartsWith(FileUrl(apiUrl, Some(path)).value, apiUrl + "/")
  {
    var r := FileUrl(apiUrl, Some(path)).value;
    var tail :| r == apiUrl + WithLeadingSlash(tail);
    var w := WithLeadingSlash(tail);
    assert r[..|apiUrl| + 1] == apiUrl + w[..1];
  }

  /** A full URL on another host is returned as it is. */
  lemma FileUrlAbsolute(apiUrl: string, path: string)
    requires StartsWith(path, "http") && !Contains(path, OldHost)
    ensures FileUrl(apiUrl, Some(path)) == Some(path)
  {
  }

  /** A relative path loses one leading `images/` and gains a leading `/`. */
  lemma FileUrlRelative(apiUrl: string, rest: string)
    requires !Contains("images/" + rest, OldHost)
    ensures FileUrl(apiUrl, Some("images/" + rest)) == Some(apiUrl + WithLeadingSlash(rest))
  {
    var p := "images/" + rest;
    assert p[..7] == "images/";
    assert !StartsWith(p, "http") by { assert p[0] == 'i'; }
    assert ReplaceFirst(p, "images/", "") == rest by {
      assert p[7..] == rest;
    }
  }

  /** A path that already starts with `/` keeps it; no path gets two. */
  lemma WithLeadingSlashIdempotent(p: string)
    ensures WithLeadingSlash(WithLeadingSlash(p)) == WithLeadingSlash(p)
  {
  }

  // ---------------------------------------------------------------------
  // uploadCarImages and updateCar

  /** A file of the car form: already stored ones carry a truthy id. */
  datatype CarFile = CarFile(id: Option<int>, name: string)

  /** One `form.append('images', file, file.name)`. */
  datatype FormEntry = FormEntry(field: string, file: CarFile, fileName: string)

  /** The files `uploadCarImages` sends: the non-null ones without an id,
      in order. */
  function NewFiles(files: seq<Option<CarFile>>): (r: seq<CarFile>)
    ensures |r| <= |files|
  {
    if files == [] then []
    else (if files[0].Some? && !NumTruthy(files[0].value.id) then [files[0].value] else []) + NewFiles(files[1..])
  }

  /** A file is sent iff it is present and has no id; nothing is sent
      twice as often as it is listed. */
  lemma {:induction false} NewFilesSpec(files: seq<Option<CarFile>>)
    ensures forall f :: f in NewFiles(files) <==> Some(f) in files && !NumTruthy(f.id)
    ensures forall f :: multiset(NewFiles(files))[f] <= multiset(files)[Some(f)]
  {
    if files != [] {
      NewFilesSpec(files[1..]);
      assert files == [files[0]] + files[1..];
    }
  }

  /** Files are sent in the order they are listed: a file appended to the
      list is appended to what is sent, when it is sent at all. */
  lemma {:induction false} NewFilesSnoc(files: seq<Option<CarFile>>, x: Option<CarFile>)
    ensures NewFiles(files + [x]) == NewFiles(files) + (if x.Some? && !NumTruthy(x.value.id) then [x.value] else [])
  {
    if files != [] {
      assert (files + [x])[1..] == files[1..] + [x];
      NewFilesSnoc(files[1..], x);
    } else {
      assert [x][1..] == [];
    }
  }

  /** Each file without an id is sent exactly as often as it is listed, a
      file with one never. */
  lemma {:induction false} NewFilesCount(files: seq<Option<CarFile>>, f: CarFile)
    ensures multiset(NewFiles(files))[f] == if NumTruthy(f.id) then 0 else multiset(files)[Some(f)]
  {
    if files != [] {
      NewFilesCount(files[1..], f);
      assert multiset(files) == multiset{files[0]} + multiset(files[1..]) by {
        assert files == [files[0]] + files[1..];
      }
    }
  }

  /** `uploadCarImages`: the FormData entries the loop appends. */
  method UploadForm(files: seq<Option<CarFile>>) returns (form: seq<FormEntry>)
    ensures |form| == |NewFiles(files)|
    ensures forall i :: 0 <= i < |form| ==> form[i] == FormEntry("images", NewFiles(files)[i], NewFiles(files)[i].name)
  {
    var chosen := NewFiles(files);
    form := [];
    var i := 0;
    while i < |chosen|
      invariant 0 <= i <= |chosen| && |form| == i
      invariant forall k :: 0 <= k < i ==> form[k] == FormEntry("images", chosen[k], chosen[k].name)
    {
      form := form + [FormEntry("images", chosen[i], chosen[i].name)];
      i := i + 1;
    }
  }

  /** `updateCar(carId, car)`: the caller's own object loses `files`, and
      that object is the body sent. */
  method UpdateCar(apiUrl: string, carId: int, car: JsObject) returns (url: string, body: map<string, Json>)
    modifies car
    ensures car.fields == old(car.fields) - {"files"}
    ensures body == car.fields && "files" !in body
    ensures url == apiUrl + "/cars/car/" + IntToString(carId)
  {
    car.fields := car.fields - {"files"};
    body := car.fields;
    url := apiUrl + "/cars/car/" + IntToString(carId);
  }
}

/** The productivity page: one statistics record per admin, three top lists
    drawn from sorted copies of those records, and the charts that show two
    of the lists.  The sample numbers the page draws at random are inputs
    here. */
module Productivity {
  import opened Js
  import opened StableSort

  /** An admin as the list endpoint returns it; `name` may be missing or
      empty. */
  datatype AdminRecord = AdminRecord(id: int, name: Option<string>, email: string)

  /** The three sample numbers drawn for one admin. */
  datatype Draw = Draw(carsAdded: int, errorsCount: int, productivityScore: int)

  datatype AdminStats = AdminStats(id: int, name: string, email: string, carsAdded: int,
                                   errorsCount: int, lastActivity: string, productivityScore: int)

  /** A chart's labels and its one data series. */
  datatype Chart = Chart(labels: seq<string>, data: seq<int>)

  const EmptyChart := Chart([], [])
  const LoadError := "Ошибка загрузки данных"

  // ---------------------------------------------------------------------
  // The statistics records

  /** `admin.name || admin.email`. */
  function DisplayName(a: AdminRecord): string
  {
    if a.name.Some? && a.name.value != "" then a.name.value else a.email
  }

  /** `admins.map(...)`: one record per admin, in the same order, stamped
      with the time `now` (an ISO string). */
  function StatsOf(admins: seq<AdminRecord>, draws: seq<Draw>, now: string): (r: seq<AdminStats>)
    requires |draws| == |admins|
    ensures |r| == |admins|
    ensures forall i :: 0 <= i < |r| ==> r[i].id == admins[i].id && r[i].email == admins[i].email && r[i].lastActivity == now
    ensures forall i :: 0 <= i < |r| ==> (admins[i].name.Some? && admins[i].name.value != "" ==> r[i].name == admins[i].name.value)
    ensures forall i :: 0 <= i < |r| ==> (admins[i].name.None? || admins[i].name == Some("") ==> r[i].name == admins[i].email)
    ensures forall i :: 0 <= i < |r| ==>
              r[i].carsAdded == draws[i].carsAdded && r[i].errorsCount == draws[i].errorsCount
              && r[i].productivityScore == draws[i].productivityScore
  {
    seq(|admins|, i requires 0 <= i < |admins| =>
      AdminStats(admins[i].id, DisplayName(admins[i]), admins[i].email, draws[i].carsAdded,
                 draws[i].errorsCount, now, draws[i].productivityScore))
  }

  // ---------------------------------------------------------------------
  // The top lists

  /** `(a, b) => b.carsAdded - a.carsAdded`: most cars first. */
  function MostCars(a: AdminStats): seq<int>
  {
    [-a.carsAdded]
  }

  /** `(a, b) => a.carsAdded - b.carsAdded`: fewest cars first. */
  function FewestCars(a: AdminStats): seq<int>
  {
    [a.carsAdded]
  }

  /** `(a, b) => b.errorsCount - a.errorsCount`: most errors first. */
  function MostErrors(a: AdminStats): seq<int>
  {
    [-a.errorsCount]
  }

  /** `[...s].sort(cmp).slice(0, n)`. */
  function Top<T>(key: T -> seq<int>, s: seq<T>, n: nat): (r: seq<T>)
    ensures |r| == Min(n, |s|)
  {
    SortBy(key, s)[..Min(n, |s|)]
  }

  /** A top list is drawn from `s`, is in key order, and no item of `s`
      left out of it has a smaller key than any item in it. */
  lemma TopSelects<T>(key: T -> seq<int>, s: seq<T>, n: nat)
    ensures multiset(Top(key, s, n)) <= multiset(s)
    ensures SortedBy(key, Top(key, s, n))
    ensures forall x, i :: x in multiset(s) - multiset(Top(key, s, n)) && 0 <= i < |Top(key, s, n)| ==>
              KeyLe(key(Top(key, s, n)[i]), key(x))
  {
    var t := SortBy(key, s);
    var k := Min(n, |s|);
    var r := t[..k];
    SortByPermutation(key, s);
    SortByOrdered(key, s);
    PrefixRest(t, k);
    forall x, i | x in multiset(s) - multiset(r) && 0 <= i < |r| ensures KeyLe(key(r[i]), key(x)) {
      SortedBeforeRest(key, t, k, i, x);
    }
  }

  /** A prefix and the rest make up the whole. */
  lemma PrefixRest<T>(t: seq<T>, k: int)
    requires 0 <= k <= |t|
    ensures multiset(t[..k]) <= multiset(t)
    ensures multiset(t) - multiset(t[..k]) == multiset(t[k..])
  {
    assert t == t[..k] + t[k..];
  }

  /** In a sorted sequence every item before position `k` has a key no
      larger than any item from `k` on. */
  lemma SortedBeforeRest<T>(key: T -> seq<int>, t: seq<T>, k: int, i: int, x: T)
    requires SortedBy(key, t) && 0 <= i < k <= |t| && x in multiset(t[k..])
    ensures KeyLe(key(t[i]), key(x))
  {
    assert x in t[k..];
    var j :| k <= j < |t| && t[j] == x;
  }

  /** Ties keep the order they had in `s`: the items of a top list with any
      one key come first among the items of `s` with that key, in order. */
  lemma TopTies<T>(key: T -> seq<int>, s: seq<T>, n: nat, k: seq<int>)
    ensures WithKey(key, k, Top(key, s, n)) <= WithKey(key, k, s)
  {
    var t := SortBy(key, s);
    var m := Min(n, |s|);
    assert t == t[..m] + t[m..];
    WithKeyAppend(key, k, t[..m], t[m..]);
    SortByStable(key, k, s);
  }

  lemma SingleKeyLe(x: int, y: int)
    ensures KeyLe([x], [y]) <==> x <= y
  {
    assert [x][1..] == [];
  }

  /** `topProductiveAdmins`: the admins with the most cars, most first;
      everyone left out added no more than anyone chosen. */
  lemma MostCarsFirst(s: seq<AdminStats>, n: nat)
    ensures var r := Top(MostCars, s, n);
      multiset(r) <= multiset(s)
      && (forall i, j :: 0 <= i < j < |r| ==> r[i].carsAdded >= r[j].carsAdded)
      && (forall a, i :: a in multiset(s) - multiset(r) && 0 <= i < |r| ==> r[i].carsAdded >= a.carsAdded)
  {
    var r := Top(MostCars, s, n);
    TopSelects(MostCars, s, n);
    forall i, j | 0 <= i < j < |r| ensures r[i].carsAdded >= r[j].carsAdded {
      MostCarsOrder(r[i], r[j]);
    }
    forall a, i | a in multiset(s) - multiset(r) && 0 <= i < |r| ensures r[i].carsAdded >= a.carsAdded {
      MostCarsOrder(r[i], a);
    }
  }

  lemma MostCarsOrder(a: AdminStats, b: AdminStats)
    requires KeyLe(MostCars(a), MostCars(b))
    ensures a.carsAdded >= b.carsAdded
  {
    SingleKeyLe(-a.carsAdded, -b.carsAdded);
  }

  /** `topUnproductiveAdmins`: the admins with the fewest cars, fewest
      first; everyone left out added at least as many as anyone chosen. */
  lemma FewestCarsFirst(s: seq<AdminStats>, n: nat)
    ensures var r := Top(FewestCars, s, n);
      multiset(r) <= multiset(s)
      && (forall i, j :: 0 <= i < j < |r| ==> r[i].carsAdded <= r[j].carsAdded)
      && (forall a, i :: a in multiset(s) - multiset(r) && 0 <= i < |r| ==> r[i].carsAdded <= a.carsAdded)
  {
    var r := Top(FewestCars, s, n);
    TopSelects(FewestCars, s, n);
    forall i, j | 0 <= i < j < |r| ensures r[i].carsAdded <= r[j].carsAdded {
      FewestCarsOrder(r[i], r[j]);
    }
    forall a, i | a in multiset(s) - multiset(r) && 0 <= i < |r| ensures r[i].carsAdded <= a.carsAdded {
      FewestCarsOrder(r[i], a);
    }
  }

  lemma FewestCarsOrder(a: AdminStats, b: AdminStats)
    requires KeyLe(FewestCars(a), FewestCars(b))
    ensures a.carsAdded <= b.carsAdded
  {
    SingleKeyLe(a.carsAdded, b.carsAdded);
  }

  /** `topProblematicAdmins`: the admins with the most errors, most first;
      everyone left out has no more errors than anyone chosen. */
  lemma MostErrorsFirst(s: seq<AdminStats>, n: nat)
    ensures var r := Top(MostErrors, s, n);
      multiset(r) <= multiset(s)
      && (forall i, j :: 0 <= i < j < |r| ==> r[i].errorsCount >= r[j].errorsCount)
      && (forall a, i :: a in multiset(s) - multiset(r) && 0 <= i < |r| ==> r[i].errorsCount >= a.errorsCount)
  {
    var r := Top(MostErrors, s, n);
    TopSelects(MostErrors, s, n);
    forall i, j | 0 <= i < j < |r| ensures r[i].errorsCount >= r[j].errorsCount {
      MostErrorsOrder(r[i], r[j]);
    }
    forall a, i | a in multiset(s) - multiset(r) && 0 <= i < |r| ensures r[i].errorsCount >= a.errorsCount {
      MostErrorsOrder(r[i], a);
    }
  }

  lemma MostErrorsOrder(a: AdminStats, b: AdminStats)
    requires KeyLe(MostErrors(a), MostErrors(b))
    ensures a.errorsCount >= b.errorsCount
  {
    SingleKeyLe(-a.errorsCount, -b.errorsCount);
  }

  // ---------------------------------------------------------------------
  // Charts

  function Names(s: seq<AdminStats>): seq<string>
  {
    seq(|s|, i requires 0 <= i < |s| => s[i].name)
  }

  function CarCounts(s: seq<AdminStats>): seq<int>
  {
    seq(|s|, i requires 0 <= i < |s| => s[i].carsAdded)
  }

  function ErrorCounts(s: seq<AdminStats>): seq<int>
  {
    seq(|s|, i requires 0 <= i < |s| => s[i].errorsCount)
  }

  /** A chart whose bars are the admins of `s`, in order, with `value`'s
      number for each. */
  predicate AlignedWith(c: Chart, s: seq<AdminStats>, value: AdminStats -> int)
  {
    |c.labels| == |s| && |c.data| == |s|
    && forall i :: 0 <= i < |s| ==> c.labels[i] == s[i].name && c.data[i] == value(s[i])
  }

  function Cars(a: AdminStats): int
  {
    a.carsAdded
  }

  function Errors(a: AdminStats): int
  {
    a.errorsCount
  }

  /** `last7Days`: the labels of the six days before `today` and of
      `today`, oldest first.  `fmtDay` stands for the locale's short date
      format of a day number. */
  function LastSevenDays(today: int, fmtDay: int -> string): (r: seq<string>)
    ensures |r| == 7 && r[0] == fmtDay(today - 6) && r[6] == fmtDay(today)
  {
    seq(7, i requires 0 <= i < 7 => fmtDay(today - (6 - i)))
  }

  // ---------------------------------------------------------------------
  // Score bands

  function ProductivityLevel(score: int): string
  {
    if score >= 80 then "Отлично"
    else if score >= 60 then "Хорошо"
    else if score >= 40 then "Удовлетворительно"
    else "Требует внимания"
  }

  function ProductivityClass(score: int): string
  {
    if score >= 80 then "text-success"
    else if score >= 60 then "text-warning"
    else if score >= 40 then "text-info"
    else "text-danger"
  }

  /** How many of the thresholds 40, 60 and 80 the score reaches. */
  function Band(score: int): (r: nat)
    ensures r <= 3
  {
    (if score >= 40 then 1 else 0) + (if score >= 60 then 1 else 0) + (if score >= 80 then 1 else 0)
  }

  const Levels := ["Требует внимания", "Удовлетворительно", "Хорошо", "Отлично"]
  const Classes := ["text-danger", "text-info", "text-warning", "text-success"]

  /** Both lookups pick the entry of the score's band. */
  lemma BandsAgree(score: int)
    ensures ProductivityLevel(score) == Levels[Band(score)]
    ensures ProductivityClass(score) == Classes[Band(score)]
  {
  }

  /** A higher score never falls into a lower band. */
  lemma BandMonotone(x: int, y: int)
    requires x <= y
    ensures Band(x) <= Band(y)
  {
  }

  lemma LevelsDistinct()
    ensures forall i, j :: 0 <= i < j < 4 ==> Levels[i] != Levels[j]
    ensures forall i, j :: 0 <= i < j < 4 ==> Classes[i] != Classes[j]
  {
    assert |Levels[0]| == 16 && |Levels[1]| == 17 && |Levels[2]| == 6 && |Levels[3]| == 7;
    assert Classes[0][5] == 'd' && Classes[1][5] == 'i' && Classes[2][5] == 'w' && Classes[3][5] == 's';
  }

  /** Two scores get the same level exactly when they get the same class,
      and exactly when they are in the same band. */
  lemma SameBands(x: int, y: int)
    ensures ProductivityLevel(x) == ProductivityLevel(y) <==> Band(x) == Band(y)
    ensures ProductivityClass(x) == ProductivityClass(y) <==> Band(x) == Band(y)
  {
    BandsAgree(x);
    BandsAgree(y);
    LevelsDistinct();
  }

  // ---------------------------------------------------------------------
  // The page

  class ProductivityPage {
    var adminStats: seq<AdminStats>
    var topProductiveAdmins: seq<AdminStats>
    var topUnproductiveAdmins: seq<AdminStats>
    var topProblematicAdmins: seq<AdminStats>
    var productivityChart: Chart
    var errorsChart: Chart
    var carsAddedChart: Chart
    var loading: bool
    var error: Option<string>

    /** The top lists are the sorted prefixes of `adminStats`, and the two
        admin charts show the first and the third list. */
    predicate Consistent()
      reads this
    {
      topProductiveAdmins == Top(MostCars, adminStats, 5)
      && topUnproductiveAdmins == Top(FewestCars, adminStats, 5)
      && topProblematicAdmins == Top(MostErrors, adminStats, 3)
      && AlignedWith(productivityChart, topProductiveAdmins, Cars)
      && AlignedWith(errorsChart, topProblematicAdmins, Errors)
    }

    constructor ()
      ensures adminStats == [] && topProductiveAdmins == [] && topUnproductiveAdmins == [] && topProblematicAdmins == []
      ensures productivityChart == EmptyChart && errorsChart == EmptyChart && carsAddedChart == EmptyChart
      ensures loading && error == None
      ensures Consistent()
    {
      adminStats, topProductiveAdmins, topUnproductiveAdmins, topProblematicAdmins := [], [], [], [];
      productivityChart, errorsChart, carsAddedChart := EmptyChart, EmptyChart, EmptyChart;
      loading, error := true, None;
    }

    /** `loadProductivityData` before the response arrives. */
    method LoadProductivityData()
      modifies this
      ensures loading && error == None
      ensures adminStats == old(adminStats) && topProductiveAdmins == old(topProductiveAdmins)
      ensures topUnproductiveAdmins == old(topUnproductiveAdmins) && topProblematicAdmins == old(topProblematicAdmins)
      ensures productivityChart == old(productivityChart) && errorsChart == old(errorsChart)
      ensures carsAddedChart == old(carsAddedChart)
    {
      loading, error := true, None;
    }

    /** The admin list arrived: it is processed and loading ends. */
    method OnAdmins(admins: seq<AdminRecord>, draws: seq<Draw>, now: string, today: int,
                    fmtDay: int -> string, daily: seq<int>)
      requires |draws| == |admins| && |daily| == 7
      modifies this
      ensures adminStats == StatsOf(admins, draws, now) && Consistent()
      ensures carsAddedChart == Chart(LastSevenDays(today, fmtDay), daily)
      ensures !loading && error == old(error)
    {
      ProcessAdminData(admins, draws, now, today, fmtDay, daily);
      loading := false;
    }

    /** The request failed: the message is shown and loading ends; the
        statistics already on the page stay. */
    method OnLoadError()
      modifies this
      ensures error == Some(LoadError) && !loading
      ensures adminStats == old(adminStats) && topProductiveAdmins == old(topProductiveAdmins)
      ensures topUnproductiveAdmins == old(topUnproductiveAdmins) && topProblematicAdmins == old(topProblematicAdmins)
      ensures productivityChart == old(productivityChart) && errorsChart == old(errorsChart)
      ensures carsAddedChart == old(carsAddedChart)
    {
      error := Some(LoadError);
      loading := false;
    }

    /** `processAdminData`: the records, then the three top lists from
        sorted copies (so `adminStats` keeps the admins' order), then the
        charts. */
    method ProcessAdminData(admins: seq<AdminRecord>, draws: seq<Draw>, now: string, today: int,
                            fmtDay: int -> string, daily: seq<int>)
      requires |draws| == |admins| && |daily| == 7
      modifies this
      ensures adminStats == StatsOf(admins, draws, now) && Consistent()
      ensures carsAddedChart == Chart(LastSevenDays(today, fmtDay), daily)
      ensures loading == old(loading) && error == old(error)
    {
      var stats := StatsOf(admins, draws, now);
      var byMost := SortedCopy(MostCars, stats);
      var byFewest := SortedCopy(FewestCars, stats);
      var byErrors := SortedCopy(MostErrors, stats);
      adminStats := stats;
      topProductiveAdmins := byMost[..Min(5, |byMost|)];
      topUnproductiveAdmins := byFewest[..Min(5, |byFewest|)];
      topProblematicAdmins := byErrors[..Min(3, |byErrors|)];
      UpdateCharts(today, fmtDay, daily);
    }

    /** `updateCharts`: the bar chart shows the most productive admins and
        their car counts, the doughnut the most problematic admins and
        their error counts, one entry per admin in list order; the line
        chart shows the last seven days with the given daily numbers. */
    method UpdateCharts(today: int, fmtDay: int -> string, daily: seq<int>)
      requires |daily| == 7
      modifies this
      ensures AlignedWith(productivityChart, topProductiveAdmins, Cars)
      ensures AlignedWith(errorsChart, topProblematicAdmins, Errors)
      ensures carsAddedChart == Chart(LastSevenDays(today, fmtDay), daily)
      ensures adminStats == old(adminStats) && topProductiveAdmins == old(topProductiveAdmins)
      ensures topUnproductiveAdmins == old(topUnproductiveAdmins) && topProblematicAdmins == old(topProblematicAdmins)
      ensures loading == old(loading) && error == old(error)
    {
      productivityChart := Chart(Names(topProductiveAdmins), CarCounts(topProductiveAdmins));
      errorsChart := Chart(Names(topProblematicAdmins), ErrorCounts(topProblematicAdmins));
      carsAddedChart := Chart(LastSevenDays(today, fmtDay), daily);
    }
  }
}

/** The NGO dashboard's derived figures (components/DashboardView.tsx): the
    neighbourhood lists and counts shown on the summary cards and in the
    attention table, and the "time ago" text. */
module Dashboard {
  import opened Common
  import opened I18n
  import opened NgoTypes

  /** `nb.daysNoWater || 0`, the sort key. */
  function Days(nb: Neighborhood): int {
    nb.daysNoWater.GetOr(0)
  }

  /** Non-increasing by days without water. */
  predicate SortedByDays(s: seq<Neighborhood>) {
    forall i, j :: 0 <= i < j < |s| ==> Days(s[i]) >= Days(s[j])
  }

  /** The elements whose key is `d`, in order. */
  function WithDays(s: seq<Neighborhood>, d: int): (r: seq<Neighborhood>)
    ensures forall i :: 0 <= i < |r| ==> Days(r[i]) == d
    decreases |s|
  {
    if s == [] then []
    else (if Days(s[0]) == d then [s[0]] else []) + WithDays(s[1..], d)
  }

  /** One insertion step of the stable sort: `x`, which came before every
      element of `s`, goes in front of the first element whose key is not
      larger than its own. */
  function InsertByDays(x: Neighborhood, s: seq<Neighborhood>): (r: seq<Neighborhood>)
    ensures |r| == |s| + 1
    ensures multiset(r) == multiset(s) + multiset{x}
    ensures r[0] == x || (s != [] && r[0] == s[0])
    ensures SortedByDays(s) ==> SortedByDays(r)
    decreases |s|
  {
    if s == [] then [x]
    else if Days(s[0]) <= Days(x) then [x] + s
    else
      var rest := InsertByDays(x, s[1..]);
      assert s == [s[0]] + s[1..];
      [s[0]] + rest
  }

  /** `sort((a, b) => (b.daysNoWater || 0) - (a.daysNoWater || 0))`: a stable
      sort (as `Array.prototype.sort` is) into non-increasing key order. */
  function SortByDays(s: seq<Neighborhood>): (r: seq<Neighborhood>)
    ensures SortedByDays(r)
    ensures multiset(r) == multiset(s)
    decreases |s|
  {
    if s == [] then []
    else
      assert s == [s[0]] + s[1..];
      InsertByDays(s[0], SortByDays(s[1..]))
  }

  /** Inserting `x` keeps the elements of each key in order, with `x` in
      front of those sharing its key. */
  lemma {:induction false} InsertByDaysStable(x: Neighborhood, s: seq<Neighborhood>, d: int)
    ensures WithDays(InsertByDays(x, s), d) == (if Days(x) == d then [x] else []) + WithDays(s, d)
    decreases |s|
  {
    var head := if Days(x) == d then [x] else [];
    if s == [] {
      assert InsertByDays(x, s) == [x];
      assert WithDays([x], d) == head + WithDays([x][1..], d);
      assert [x][1..] == [];
    } else if Days(s[0]) <= Days(x) {
      var r := [x] + s;
      assert InsertByDays(x, s) == r;
      assert r[1..] == s;
      assert WithDays(r, d) == head + WithDays(s, d);
    } else {
      var rest := InsertByDays(x, s[1..]);
      var r := [s[0]] + rest;
      assert InsertByDays(x, s) == r;
      assert r[1..] == rest;
      InsertByDaysStable(x, s[1..], d);
      assert WithDays(r, d) == (if Days(s[0]) == d then [s[0]] else []) + head + WithDays(s[1..], d);
      assert WithDays(s, d) == (if Days(s[0]) == d then [s[0]] else []) + WithDays(s[1..], d);
    }
  }

  /** The sort is stable: neighbourhoods with the same number of days keep
      their relative order. */
  lemma {:induction false} SortByDaysStable(s: seq<Neighborhood>, d: int)
    ensures WithDays(SortByDays(s), d) == WithDays(s, d)
    decreases |s|
  {
    if s != [] {
      SortByDaysStable(s[1..], d);
      InsertByDaysStable(s[0], SortByDays(s[1..]), d);
      assert WithDays(s, d) == (if Days(s[0]) == d then [s[0]] else []) + WithDays(s[1..], d);
    }
  }

  /** A filter followed by the sort by days, as both lists on the page are
      built: exactly the neighbourhoods that pass, each as often as it
      occurs, most days first. */
  function SortedSelection(ns: seq<Neighborhood>, keep: Neighborhood -> bool): (r: seq<Neighborhood>)
    ensures SortedByDays(r)
    ensures multiset(r) == multiset(Filter(ns, keep))
    ensures |r| == |Filter(ns, keep)|
    ensures forall nb :: nb in r <==> nb in ns && keep(nb)
  {
    var kept := Filter(ns, keep);
    var r := SortByDays(kept);
    assert |r| == |multiset(r)| == |multiset(kept)| == |kept|;
    assert forall nb :: nb in r <==> nb in kept by {
      forall nb ensures nb in r <==> nb in kept {
        assert nb in r <==> nb in multiset(r);
        assert nb in kept <==> nb in multiset(kept);
      }
    }
    assert forall nb :: nb in kept <==> nb in ns && keep(nb) by {
      forall nb ensures nb in kept <==> nb in ns && keep(nb) {
        if nb in kept {
          var i :| 0 <= i < |kept| && kept[i] == nb;
        }
        if nb in ns && keep(nb) {
          var i :| 0 <= i < |ns| && ns[i] == nb;
        }
      }
    }
    r
  }

  /** The `areasWithNoWater` filter: no water, and a truthy, positive
      number of days without it. */
  predicate LacksWater(nb: Neighborhood) {
    nb.waterStatus == NoWater && nb.daysNoWater.Some? && nb.daysNoWater.value > 0
  }

  predicate IsContaminated(nb: Neighborhood) {
    nb.waterStatus == Contaminated
  }

  predicate PowerOff(nb: Neighborhood) {
    nb.powerStatus == Off
  }

  /** The attention table's filter: no water, contaminated, no power, or at
      least a week without water. */
  predicate NeedsAttention(nb: Neighborhood) {
    || nb.waterStatus == NoWater
    || nb.waterStatus == Contaminated
    || nb.powerStatus == Off
    || (nb.daysNoWater.Some? && nb.daysNoWater.value >= 7)
  }

  /** `areasWithNoWater`. */
  function AreasWithNoWater(ns: seq<Neighborhood>): (r: seq<Neighborhood>)
    ensures SortedByDays(r)
    ensures multiset(r) == multiset(Filter(ns, LacksWater))
    ensures forall nb :: nb in r <==> nb in ns && nb.waterStatus == NoWater && nb.daysNoWater.Some? && nb.daysNoWater.value > 0
  {
    SortedSelection(ns, LacksWater)
  }

  /** `areasWithContaminatedWater`, in data order. */
  function AreasWithContaminatedWater(ns: seq<Neighborhood>): (r: seq<Neighborhood>)
    ensures r == Filter(ns, IsContaminated)
    ensures |r| <= |ns|
    ensures forall nb :: Count(r, nb) == if IsContaminated(nb) then Count(ns, nb) else 0
    ensures forall nb :: nb in r <==> nb in ns && nb.waterStatus == Contaminated
  {
    var r := Filter(ns, IsContaminated);
    assert forall nb :: nb in r <==> nb in ns && IsContaminated(nb) by {
      forall nb ensures nb in r <==> nb in ns && IsContaminated(nb) {
        if nb in r {
          var i :| 0 <= i < |r| && r[i] == nb;
        }
        if nb in ns && IsContaminated(nb) {
          var i :| 0 <= i < |ns| && ns[i] == nb;
        }
      }
    }
    forall nb ensures Count(r, nb) == if IsContaminated(nb) then Count(ns, nb) else 0 {
      FilterCount(ns, IsContaminated, nb);
    }
    r
  }

  /** The power status of each neighbourhood, in data order. */
  function PowerStatuses(ns: seq<Neighborhood>): (r: seq<PowerStatus>)
    ensures |r| == |ns|
    ensures forall i :: 0 <= i < |ns| ==> r[i] == ns[i].powerStatus
  {
    seq(|ns|, i requires 0 <= i < |ns| => ns[i].powerStatus)
  }

  /** `areasWithPowerOutagesCount`: the length of the "power off" filter. */
  function PowerOutageCount(ns: seq<Neighborhood>): (n: nat)
    ensures n <= |ns|
  {
    |Filter(ns, PowerOff)|
  }

  /** The count is the number of neighbourhoods whose power status is off. */
  lemma {:induction false} PowerOutageCountIsOffCount(ns: seq<Neighborhood>)
    ensures PowerOutageCount(ns) == Count(PowerStatuses(ns), Off)
    decreases |ns|
  {
    if ns != [] {
      PowerOutageCountIsOffCount(ns[1..]);
      assert PowerStatuses(ns)[1..] == PowerStatuses(ns[1..]);
    }
  }

  /** The "with water" figure: total minus the no-water list minus the
      contaminated list. It is never negative, because no neighbourhood is
      in both lists. */
  function WithWaterCount(ns: seq<Neighborhood>): (n: int)
    ensures 0 <= n <= |ns|
  {
    FilterDisjointCount(ns, LacksWater, IsContaminated);
    |ns| - |AreasWithNoWater(ns)| - |AreasWithContaminatedWater(ns)|
  }

  /** The attention table's rows. */
  function AttentionList(ns: seq<Neighborhood>): (r: seq<Neighborhood>)
    ensures SortedByDays(r)
    ensures multiset(r) == multiset(Filter(ns, NeedsAttention))
    ensures forall nb :: nb in r <==> nb in ns && NeedsAttention(nb)
  {
    SortedSelection(ns, NeedsAttention)
  }

  /** Every neighbourhood on the "no water" card is also in the attention
      table, and so is every contaminated one. */
  lemma SummaryAreasNeedAttention(ns: seq<Neighborhood>)
    ensures forall nb :: nb in AreasWithNoWater(ns) ==> nb in AttentionList(ns)
    ensures forall nb :: nb in AreasWithContaminatedWater(ns) ==> nb in AttentionList(ns)
  {
  }

  /** The message `formatTimeAgo` picks: a translation key and its params. */
  datatype TimeAgo = TimeAgo(key: string, params: seq<Param>)

  const MINUTE: int := 60
  const HOUR: int := 3600
  const DAY: int := 86400
  const WEEK: int := 604800

  /** The chain of early returns in `formatTimeAgo`, from the elapsed
      milliseconds: whole seconds, then minutes, hours, days, weeks, 30-day
      months and 365-day years, each by `Math.floor` (Euclidean division by
      a positive number is the floor). */
  function TimeAgoMessage(elapsedMs: int): (m: TimeAgo)
    ensures var s := elapsedMs / 1000;
      && (s < MINUTE ==> m == TimeAgo("time.justNow", []))
      && (MINUTE <= s < HOUR ==> m == TimeAgo("time.minutesAgo", [Param("minutes", Number(s / MINUTE))]))
      && (HOUR <= s < 2 * HOUR ==> m == TimeAgo("time.hourAgo", []))
      && (2 * HOUR <= s < DAY ==> m == TimeAgo("time.hoursAgo", [Param("hours", Number(s / HOUR))]))
      && (DAY <= s < 2 * DAY ==> m == TimeAgo("time.dayAgo", []))
      && (2 * DAY <= s < WEEK ==> m == TimeAgo("time.daysAgo", [Param("days", Number(s / DAY))]))
      && (WEEK <= s < 2 * WEEK ==> m == TimeAgo("time.weekAgo", []))
      && (2 * WEEK <= s < 4 * WEEK ==> m == TimeAgo("time.weeksAgo", [Param("weeks", Number(s / WEEK))]))
    ensures var days := elapsedMs / 1000 / DAY;
      && (30 <= days < 60 ==> m == TimeAgo("time.monthAgo", []))
      && (28 <= days < 30 || 60 <= days < 360 ==> m == TimeAgo("time.monthsAgo", [Param("months", Number(days / 30))]))
      && (365 <= days < 730 ==> m == TimeAgo("time.yearAgo", []))
      && (360 <= days < 365 || 730 <= days ==> m == TimeAgo("time.yearsAgo", [Param("years", Number(days / 365))]))
  {
    var seconds := elapsedMs / 1000;
    var minutes := seconds / 60;
    var hours := minutes / 60;
    var days := hours / 24;
    var weeks := days / 7;
    var months := days / 30;
    var years := days / 365;
    assert hours == seconds / HOUR && days == seconds / DAY && weeks == seconds / WEEK;
    if seconds < 60 then TimeAgo("time.justNow", [])
    else if minutes == 1 then TimeAgo("time.minutesAgo", [Param("minutes", Number(1))])
    else if minutes < 60 then TimeAgo("time.minutesAgo", [Param("minutes", Number(minutes))])
    else if hours == 1 then TimeAgo("time.hourAgo", [])
    else if hours < 24 then TimeAgo("time.hoursAgo", [Param("hours", Number(hours))])
    else if days == 1 then TimeAgo("time.dayAgo", [])
    else if days < 7 then TimeAgo("time.daysAgo", [Param("days", Number(days))])
    else if weeks == 1 then TimeAgo("time.weekAgo", [])
    else if weeks < 4 then TimeAgo("time.weeksAgo", [Param("weeks", Number(weeks))])
    else if months == 1 then TimeAgo("time.monthAgo", [])
    else if months < 12 then TimeAgo("time.monthsAgo", [Param("months", Number(months))])
    else if years == 1 then TimeAgo("time.yearAgo", [])
    else TimeAgo("time.yearsAgo", [Param("years", Number(years))])
  }

  /** The bucket choice as evidently intended: the weeks bucket runs up to
      30 days and the months bucket up to 365 days, so that the month and
      year counts shown are never 0. Elsewhere it agrees with the chain as
      written. */
  function TimeAgoIntended(elapsedMs: int): (m: TimeAgo)
    ensures forall i :: 0 <= i < |m.params| ==> m.params[i].value.Number? && m.params[i].value.n >= 1
    ensures var days := elapsedMs / 1000 / DAY;
      !(28 <= days < 30) && !(360 <= days < 365) ==> m == TimeAgoMessage(elapsedMs)
    ensures var days := elapsedMs / 1000 / DAY;
      && (28 <= days < 30 ==> m == TimeAgo("time.weeksAgo", [Param("weeks", Number(4))]))
      && (360 <= days < 365 ==> m == TimeAgo("time.monthsAgo", [Param("months", Number(12))]))
  {
    var seconds := elapsedMs / 1000;
    var minutes := seconds / 60;
    var hours := minutes / 60;
    var days := hours / 24;
    var weeks := days / 7;
    var months := days / 30;
    var years := days / 365;
    assert hours == seconds / HOUR && days == seconds / DAY && weeks == seconds / WEEK;
    if seconds < 60 then TimeAgo("time.justNow", [])
    else if minutes == 1 then TimeAgo("time.minutesAgo", [Param("minutes", Number(1))])
    else if minutes < 60 then TimeAgo("time.minutesAgo", [Param("minutes", Number(minutes))])
    else if hours == 1 then TimeAgo("time.hourAgo", [])
    else if hours < 24 then TimeAgo("time.hoursAgo", [Param("hours", Number(hours))])
    else if days == 1 then TimeAgo("time.dayAgo", [])
    else if days < 7 then TimeAgo("time.daysAgo", [Param("days", Number(days))])
    else if weeks == 1 then TimeAgo("time.weekAgo", [])
    else if days < 30 then TimeAgo("time.weeksAgo", [Param("weeks", Number(weeks))])
    else if months == 1 then TimeAgo("time.monthAgo", [])
    else if days < 365 then TimeAgo("time.monthsAgo", [Param("months", Number(months))])
    else if years == 1 then TimeAgo("time.yearAgo", [])
    else TimeAgo("time.yearsAgo", [Param("years", Number(years))])
  }

  /** `formatTimeAgo`, translated in the dashboard's language (its own
      `lang` argument is never read), with the bucket chain as written: at
      28 and 29 days it reads "0 months ago". */
  function FormatTimeAgo(c: Catalog, lang: string, elapsedMs: int): (r: string)
    ensures r == Translate(c, lang, TimeAgoMessage(elapsedMs).key, TimeAgoMessage(elapsedMs).params)
    ensures elapsedMs < 60000 ==> r == Lookup(c, lang, "time.justNow")
    ensures 28 * DAY * 1000 <= elapsedMs < 30 * DAY * 1000 ==>
      r == Translate(c, lang, "time.monthsAgo", [Param("months", Number(0))])
  {
    var m := TimeAgoMessage(elapsedMs);
    assert 28 * DAY * 1000 <= elapsedMs < 30 * DAY * 1000 ==> 28 <= elapsedMs / 1000 / DAY < 30;
    Translate(c, lang, m.key, m.params)
  }

  /** The same text with the intended bucket choice: no count shown is 0,
      and outside the two windows it is the text as written. */
  function FormatTimeAgoIntended(c: Catalog, lang: string, elapsedMs: int): (r: string)
    ensures r == Translate(c, lang, TimeAgoIntended(elapsedMs).key, TimeAgoIntended(elapsedMs).params)
    ensures var days := elapsedMs / 1000 / DAY;
      !(28 <= days < 30) && !(360 <= days < 365) ==> r == FormatTimeAgo(c, lang, elapsedMs)
    ensures 28 * DAY * 1000 <= elapsedMs < 30 * DAY * 1000 ==>
      r == Translate(c, lang, "time.weeksAgo", [Param("weeks", Number(4))])
  {
    var m := TimeAgoIntended(elapsedMs);
    assert 28 * DAY * 1000 <= elapsedMs < 30 * DAY * 1000 ==> 28 <= elapsedMs / 1000 / DAY < 30;
    Translate(c, lang, m.key, m.params)
  }

  /** Four weeks is not yet a month: 28 and 29 days read "0 months ago". */
  lemma ZeroMonthsAgo(elapsedMs: int)
    requires 28 * DAY * 1000 <= elapsedMs < 30 * DAY * 1000
    ensures TimeAgoMessage(elapsedMs) == TimeAgo("time.monthsAgo", [Param("months", Number(0))])
  {
    var days := elapsedMs / 1000 / DAY;
    assert 28 <= days < 30;
  }

  /** Twelve 30-day months are not yet a 365-day year: 360 to 364 days read
      "0 years ago". */
  lemma ZeroYearsAgo(elapsedMs: int)
    requires 360 * DAY * 1000 <= elapsedMs < 365 * DAY * 1000
    ensures TimeAgoMessage(elapsedMs) == TimeAgo("time.yearsAgo", [Param("years", Number(0))])
  {
    var days := elapsedMs / 1000 / DAY;
    assert 360 <= days < 365;
  }
}
